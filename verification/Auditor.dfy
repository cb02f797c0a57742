/** scripts/audit_windows_compat.py: a visitor that counts platform guards. */
module Auditor {
  import opened Text

  // ---- the tree

  datatype Node =
    | If(test: Node, body: seq<Node>, orelse: seq<Node>)
    | Try(body: seq<Node>, handlers: seq<Node>, orelse: seq<Node>, finalbody: seq<Node>)
    | Handler(kind: Option<Node>, body: seq<Node>)
    | Import(line: nat, names: seq<string>)
    | ImportFrom(line: nat, source: Option<string>)
    | Name(id: string)
    | Attribute(line: nat, value: Node, attr: string)
    | Call(line: nat, func: Node, args: seq<Node>, keywords: seq<Node>)
    | Keyword(arg: Option<string>, value: Node)
    | Str(line: nat, text: string)
    | List(elts: seq<Node>)
    | Tuple(elts: seq<Node>)
    | Other(children: seq<Node>)

  ghost predicate Below(nodes: seq<Node>, node: Node) { forall i :: 0 <= i < |nodes| ==> nodes[i] < node }

  /** The child nodes, in the order of the fields. */
  function Children(node: Node): (nodes: seq<Node>)
    ensures Below(nodes, node)
  {
    match node
    case If(test, body, orelse) => [test] + body + orelse
    case Try(body, handlers, orelse, finalbody) => body + handlers + orelse + finalbody
    case Handler(kind, body) => (if kind.Some? then [kind.value] else []) + body
    case Attribute(_, value, _) => [value]
    case Call(_, func, args, keywords) => [func] + args + keywords
    case Keyword(_, value) => [value]
    case List(elts) => elts
    case Tuple(elts) => elts
    case Other(children) => children
    case _ => []
  }

  /** What an `if` guards: both branches. */
  function Branches(node: Node): (nodes: seq<Node>)
    requires node.If?
    ensures Below(nodes, node)
  {
    node.body + node.orelse
  }

  /** What of a `try` its handlers do not guard. */
  function AfterTry(node: Node): (nodes: seq<Node>)
    requires node.Try?
    ensures Below(nodes, node)
  {
    node.handlers + node.orelse + node.finalbody
  }

  // ---- guards

  const PLATFORM_NAMES: set<string> :=
    {"IS_WINDOWS", "IS_POSIX", "IS_LINUX", "WINDOWS", "POSIX", "ON_WINDOWS", "is_windows", "WIN32"}

  const PLATFORM_ATTRS: set<(string, string)> :=
    {("os", "name"), ("sys", "platform"), ("psutil", "WINDOWS"), ("psutil", "LINUX"), ("psutil", "MACOS"),
     ("psutil", "POSIX"), ("platform", "system"), ("platform", "platform")}

  predicate NamesPlatform(node: Node) {
    match node
    case Name(id) => id in PLATFORM_NAMES
    case Attribute(_, value, attr) => value.Name? && (value.id, attr) in PLATFORM_ATTRS
    case _ => false
  }

  /** Some node within names the platform. */
  predicate IsPlatformTest(node: Node)
    decreases node
  {
    NamesPlatform(node) || exists i :: 0 <= i < |Children(node)| && IsPlatformTest(Children(node)[i])
  }

  const HANDLED: set<string> := {"ImportError", "ModuleNotFoundError", "AttributeError", "OSError", "Exception"}

  predicate Catches(handler: Node) {
    handler.Handler? && handler.kind.Some? && match handler.kind.value
      case Name(id) => id in HANDLED
      case Tuple(elts) => exists i :: 0 <= i < |elts| && elts[i].Name? && elts[i].id in HANDLED
      case _ => false
  }

  predicate Handles(handlers: seq<Node>) { exists i :: 0 <= i < |handlers| && Catches(handlers[i]) }

  // ---- what each node by itself gives rise to

  datatype Severity = BLOCKER | WARNING | NOTE

  /** The tables of what only works on POSIX. */
  datatype Rules = Rules(
    modules: map<string, Severity>, osAttrs: map<string, Severity>, signals: map<string, Severity>,
    kwargs: map<string, Severity>, binaries: map<string, Severity>, prefixes: seq<string>)

  datatype Finding = Finding(severity: Severity, category: string, line: nat, detail: string)

  function Top(name: string): string { if name == "" || name[0] == '.' then "" else [name[0]] + Top(name[1..]) }

  function SkipSpaces(s: string): string { if s != "" && IsSpace(s[0]) then SkipSpaces(s[1..]) else s }

  function Word(s: string): string { if s == "" || IsSpace(s[0]) then "" else [s[0]] + Word(s[1..]) }

  function Basename(s: string): string {
    if s == "" then "" else if '/' in s then Basename(s[1..]) else s
  }

  function ImportsOf(rules: Rules, names: seq<string>, line: nat): seq<Finding> {
    if names == [] then [] else
      (if Top(names[0]) in rules.modules then [Finding(rules.modules[Top(names[0])], "posix-module", line, "import " + names[0])] else [])
      + ImportsOf(rules, names[1..], line)
  }

  function KwargsOf(rules: Rules, keywords: seq<Node>, line: nat): seq<Finding> {
    if keywords == [] then [] else
      var k := keywords[0];
      (if k.Keyword? && k.arg.Some? && k.arg.value != "" && k.arg.value in rules.kwargs
       then [Finding(rules.kwargs[k.arg.value], "posix-kwarg", line, k.arg.value + "=...")] else [])
      + KwargsOf(rules, keywords[1..], line)
  }

  const RUNNERS: set<string> :=
    {"run", "call", "check_call", "check_output", "Popen", "system", "popen", "getoutput"}

  predicate IsProcessCall(func: Node) {
    match func
    case Attribute(_, _, attr) => attr in RUNNERS
    case Name(id) => id == "popen" || id == "system"
    case _ => false
  }

  /** The program a call names: the first word of a string, or the first string of a list. */
  function Program(args: seq<Node>): Option<string> {
    if args == [] then None
    else match args[0]
      case Str(_, text) => if SkipSpaces(text) == "" then None else Some(Word(SkipSpaces(text)))
      case List(elts) => if elts != [] && elts[0].Str? then Some(elts[0].text) else None
      case _ => None
  }

  function BinaryOf(rules: Rules, func: Node, args: seq<Node>, line: nat): seq<Finding> {
    match Program(args)
    case Some(name) =>
      var binary := Basename(name);
      if binary in rules.binaries && IsProcessCall(func)
      then [Finding(rules.binaries[binary], "posix-binary", line, "invokes `" + binary + "`")] else []
    case None => []
  }

  predicate StartsWith(s: string, prefixes: seq<string>) {
    exists i :: 0 <= i < |prefixes| && |prefixes[i]| <= |s| && s[..|prefixes[i]|] == prefixes[i]
  }

  /** What a node by itself gives rise to, before any guard is looked at. */
  function Local(rules: Rules, node: Node): seq<Finding> {
    match node
    case Import(line, names) => ImportsOf(rules, names, line)
    case ImportFrom(line, source) =>
      if source.Some? && source.value != "" && Top(source.value) in rules.modules
      then [Finding(rules.modules[Top(source.value)], "posix-module", line, "from " + source.value + " import ...")] else []
    case Attribute(line, value, attr) =>
      if !value.Name? then []
      else if value.id == "os" then
        if attr in rules.osAttrs then [Finding(rules.osAttrs[attr], "posix-os-api", line, "os." + attr)] else []
      else if value.id == "signal" && attr in rules.signals
      then [Finding(rules.signals[attr], "posix-signal", line, "signal." + attr)] else []
    case Call(line, func, args, keywords) => KwargsOf(rules, keywords, line) + BinaryOf(rules, func, args, line)
    case Str(line, text) =>
      if StartsWith(text, rules.prefixes) && |text| > 5
      then [Finding(WARNING, "abs-posix-path", line, "hard-coded path '" + text + "'")] else []
    case _ => []
  }

  // ---- the meaning, from the leaves up

  /** A finding and how many guards stand around it. */
  datatype Found = Found(what: Finding, guards: nat)

  function Bare(findings: seq<Finding>): seq<Found> {
    seq(|findings|, i requires 0 <= i < |findings| => Found(findings[i], 0))
  }

  function One(guard: bool): nat { if guard then 1 else 0 }

  /** One more guard around all of these, if it is one. */
  function Around(guard: bool, found: seq<Found>): seq<Found> {
    seq(|found|, i requires 0 <= i < |found| => Found(found[i].what, found[i].guards + One(guard)))
  }

  /** Everything found in a tree. The test of an `if` is not looked into. */
  function Occurrences(rules: Rules, node: Node): seq<Found>
    decreases node, 1, 0
  {
    match node
    case If(test, _, _) => Around(IsPlatformTest(test), OccurrencesIn(rules, node, Branches(node)))
    case Try(body, handlers, _, _) =>
      Around(Handles(handlers), OccurrencesIn(rules, node, body)) + OccurrencesIn(rules, node, AfterTry(node))
    case _ => Bare(Local(rules, node)) + OccurrencesIn(rules, node, Children(node))
  }

  function OccurrencesIn(rules: Rules, ghost owner: Node, nodes: seq<Node>): seq<Found>
    requires Below(nodes, owner)
    decreases owner, 0, |nodes|
  {
    if nodes == [] then [] else Occurrences(rules, nodes[0]) + OccurrencesIn(rules, owner, nodes[1..])
  }

  const INSIDE: string := " (inside a platform guard)"

  /** Downgraded and marked, once, when any guard stands around it. */
  function Reported(found: Found, depth: nat): Finding {
    if depth + found.guards > 0 then found.what.(severity := NOTE, detail := found.what.detail + INSIDE) else found.what
  }

  function ReportedAll(found: seq<Found>, depth: nat): seq<Finding> {
    seq(|found|, i requires 0 <= i < |found| => Reported(found[i], depth))
  }

  // ---- the visitor

  class Visitor {
    const rules: Rules
    var guardDepth: nat
    var findings: seq<Finding>

    constructor (rules: Rules)
      ensures this.rules == rules && guardDepth == 0 && findings == []
    {
      this.rules, guardDepth, findings := rules, 0, [];
    }

    method Add(what: Finding)
      modifies this`findings
      ensures findings == old(findings) + [Reported(Found(what, 0), guardDepth)]
    {
      var f := what;
      if guardDepth > 0 {
        f := f.(severity := NOTE, detail := f.detail + INSIDE);
      }
      findings := findings + [f];
    }

    method AddAll(what: seq<Finding>)
      modifies this`findings
      ensures findings == old(findings) + ReportedAll(Bare(what), guardDepth)
    {
      for i := 0 to |what|
        invariant findings == old(findings) + ReportedAll(Bare(what[..i]), guardDepth)
      {
        Add(what[i]);
      }
      assert what[..|what|] == what;
    }

    /** The findings are those of the meaning, in its order, downgraded exactly when this
        visitor is inside a guard or the meaning counts one; and the count of guards ends where
        it started. */
    method Visit(node: Node)
      modifies this
      ensures guardDepth == old(guardDepth)
      ensures findings == old(findings) + ReportedAll(Occurrences(rules, node), guardDepth)
      decreases node, 2, 0
    {
      match node
      case If(_, _, _) => VisitIf(node);
      case Try(_, _, _, _) => VisitTry(node);
      case _ => VisitOther(node);
    }

    method VisitIf(node: Node)
      requires node.If?
      modifies this
      ensures guardDepth == old(guardDepth)
      ensures findings == old(findings) + ReportedAll(Occurrences(rules, node), guardDepth)
      decreases node, 1, 0
    {
      VisitGuarded(node, Branches(node), IsPlatformTest(node.test));
      IfReported(rules, node, guardDepth);
    }

    /** Under one more guard, if it is one. */
    method VisitGuarded(ghost owner: Node, nodes: seq<Node>, guard: bool)
      requires Below(nodes, owner)
      modifies this
      ensures guardDepth == old(guardDepth)
      ensures findings == old(findings) + ReportedAll(OccurrencesIn(rules, owner, nodes), guardDepth + One(guard))
      decreases owner, 0, |nodes| + 1
    {
      guardDepth := guardDepth + One(guard);
      VisitAll(owner, nodes);
      guardDepth := guardDepth - One(guard);
    }

    method VisitTry(node: Node)
      requires node.Try?
      modifies this
      ensures guardDepth == old(guardDepth)
      ensures findings == old(findings) + ReportedAll(Occurrences(rules, node), guardDepth)
      decreases node, 1, 0
    {
      VisitGuarded(node, node.body, Handles(node.handlers));
      VisitAll(node, AfterTry(node));
      TryReported(rules, node, old(findings), guardDepth);
    }

    method VisitOther(node: Node)
      requires !node.If? && !node.Try?
      modifies this
      ensures guardDepth == old(guardDepth)
      ensures findings == old(findings) + ReportedAll(Occurrences(rules, node), guardDepth)
      decreases node, 1, 0
    {
      AddAll(Local(rules, node));
      VisitAll(node, Children(node));
      OtherReported(rules, node, old(findings), guardDepth);
    }

    method VisitAll(ghost owner: Node, nodes: seq<Node>)
      requires Below(nodes, owner)
      modifies this
      ensures guardDepth == old(guardDepth)
      ensures findings == old(findings) + ReportedAll(OccurrencesIn(rules, owner, nodes), guardDepth)
      decreases owner, 0, |nodes|
    {
      if nodes != [] {
        Visit(nodes[0]);
        VisitAll(owner, nodes[1..]);
        ReportedJoin(Occurrences(rules, nodes[0]), OccurrencesIn(rules, owner, nodes[1..]), guardDepth);
      }
    }
  }

  lemma ReportedJoin(a: seq<Found>, b: seq<Found>, depth: nat)
    ensures ReportedAll(a + b, depth) == ReportedAll(a, depth) + ReportedAll(b, depth)
  {
  }

  lemma IfReported(rules: Rules, node: Node, depth: nat)
    requires node.If?
    ensures ReportedAll(Occurrences(rules, node), depth)
         == ReportedAll(OccurrencesIn(rules, node, Branches(node)), depth + One(IsPlatformTest(node.test)))
  {
    ReportedAround(IsPlatformTest(node.test), OccurrencesIn(rules, node, Branches(node)), depth);
  }

  /** A guard is the same whether the visitor counts it or the meaning. */
  lemma ReportedAround(guard: bool, found: seq<Found>, depth: nat)
    ensures ReportedAll(Around(guard, found), depth) == ReportedAll(found, depth + One(guard))
  {
  }

  lemma OtherReported(rules: Rules, node: Node, before: seq<Finding>, depth: nat)
    requires !node.If? && !node.Try?
    ensures before + ReportedAll(Occurrences(rules, node), depth)
            == (before + ReportedAll(Bare(Local(rules, node)), depth)) + ReportedAll(OccurrencesIn(rules, node, Children(node)), depth)
  {
    OtherJoined(Bare(Local(rules, node)), OccurrencesIn(rules, node, Children(node)), before, depth);
  }

  lemma OtherJoined(own: seq<Found>, rest: seq<Found>, before: seq<Finding>, depth: nat)
    ensures before + ReportedAll(own + rest, depth) == (before + ReportedAll(own, depth)) + ReportedAll(rest, depth)
  {
    ReportedJoin(own, rest, depth);
  }

  lemma TryReported(rules: Rules, node: Node, before: seq<Finding>, depth: nat)
    requires node.Try?
    ensures var d := depth + One(Handles(node.handlers));
            before + ReportedAll(Occurrences(rules, node), depth)
            == (before + ReportedAll(OccurrencesIn(rules, node, node.body), d)) + ReportedAll(OccurrencesIn(rules, node, AfterTry(node)), depth)
  {
    TryJoined(Handles(node.handlers), OccurrencesIn(rules, node, node.body), OccurrencesIn(rules, node, AfterTry(node)), before, depth);
  }

  lemma TryJoined(guard: bool, inBody: seq<Found>, rest: seq<Found>, before: seq<Finding>, depth: nat)
    ensures (before + ReportedAll(inBody, depth + One(guard))) + ReportedAll(rest, depth)
         == before + ReportedAll(Around(guard, inBody) + rest, depth)
  {
  }

  // ---- the exit code

  /** Something that blocks and that no guard stands around. */
  ghost predicate Blocks(rules: Rules, tree: Node) {
    exists i :: 0 <= i < |Occurrences(rules, tree)| && Unguarded(Occurrences(rules, tree)[i])
  }

  predicate Unguarded(found: Found) { found.guards == 0 && found.what.severity == BLOCKER }

  /** The files of one run: exit code 1 exactly when some file holds an unguarded blocker. */
  method Audit(rules: Rules, trees: seq<Node>) returns (findings: seq<Finding>, code: int)
    ensures findings == AllReported(rules, trees)
    ensures code == if exists k :: 0 <= k < |trees| && Blocks(rules, trees[k]) then 1 else 0
  {
    findings := [];
    for k := 0 to |trees|
      invariant findings == AllReported(rules, trees[..k])
    {
      var visitor := new Visitor(rules);
      visitor.Visit(trees[k]);
      assert trees[..k + 1][..k] == trees[..k];
      findings := findings + visitor.findings;
    }
    assert trees[..|trees|] == trees;
    BlockersShow(rules, trees);
    code := if exists i :: 0 <= i < |findings| && findings[i].severity == BLOCKER then 1 else 0;
  }

  function AllReported(rules: Rules, trees: seq<Node>): seq<Finding> {
    if trees == [] then [] else
      AllReported(rules, trees[..|trees| - 1]) + ReportedAll(Occurrences(rules, trees[|trees| - 1]), 0)
  }

  predicate AnyBlocker(findings: seq<Finding>) { exists i :: 0 <= i < |findings| && findings[i].severity == BLOCKER }

  lemma BlockerReported(rules: Rules, tree: Node)
    ensures AnyBlocker(ReportedAll(Occurrences(rules, tree), 0)) <==> Blocks(rules, tree)
  {
    var found := Occurrences(rules, tree);
    var all := ReportedAll(found, 0);
    assert forall i :: 0 <= i < |found| ==> (all[i].severity == BLOCKER <==> Unguarded(found[i]));
    if Blocks(rules, tree) {
      var i :| 0 <= i < |found| && Unguarded(found[i]);
      assert all[i].severity == BLOCKER;
    }
  }

  lemma AnyBlockerJoin(a: seq<Finding>, b: seq<Finding>)
    ensures AnyBlocker(a + b) <==> AnyBlocker(a) || AnyBlocker(b)
  {
    if i :| 0 <= i < |a| && a[i].severity == BLOCKER { assert (a + b)[i] == a[i]; }
    if i :| 0 <= i < |b| && b[i].severity == BLOCKER { assert (a + b)[|a| + i] == b[i]; }
  }

  /** A blocker is reported as one exactly when no guard stands around it. */
  lemma {:induction false} BlockersShow(rules: Rules, trees: seq<Node>)
    ensures AnyBlocker(AllReported(rules, trees)) <==> exists k :: 0 <= k < |trees| && Blocks(rules, trees[k])
  {
    if trees != [] {
      var n := |trees| - 1;
      BlockersShow(rules, trees[..n]);
      BlockerReported(rules, trees[n]);
      AnyBlockerJoin(AllReported(rules, trees[..n]), ReportedAll(Occurrences(rules, trees[n]), 0));
      assert forall k :: 0 <= k < n ==> trees[..n][k] == trees[k];
    }
  }

  // ---- what is not looked into

  /** Everything any node of the tree gives rise to, the tests of `if` included, in the order
      of the fields. */
  function EveryLocal(rules: Rules, node: Node): seq<Finding>
    decreases node, 1, 0
  {
    Local(rules, node) + EveryLocalIn(rules, node, Children(node))
  }

  function EveryLocalIn(rules: Rules, ghost owner: Node, nodes: seq<Node>): seq<Finding>
    requires Below(nodes, owner)
    decreases owner, 0, |nodes|
  {
    if nodes == [] then [] else EveryLocal(rules, nodes[0]) + EveryLocalIn(rules, owner, nodes[1..])
  }

  /** No test of an `if` the visitor comes to gives rise to anything. */
  predicate QuietTests(rules: Rules, node: Node)
    decreases node, 1, 0
  {
    match node
    case If(test, _, _) => EveryLocal(rules, test) == [] && QuietTestsIn(rules, node, Branches(node))
    case _ => QuietTestsIn(rules, node, Children(node))
  }

  predicate QuietTestsIn(rules: Rules, ghost owner: Node, nodes: seq<Node>)
    requires Below(nodes, owner)
    decreases owner, 0, |nodes|
  {
    nodes == [] || (QuietTests(rules, nodes[0]) && QuietTestsIn(rules, owner, nodes[1..]))
  }

  function Whats(found: seq<Found>): seq<Finding> {
    seq(|found|, i requires 0 <= i < |found| => found[i].what)
  }

  lemma WhatsJoin(a: seq<Found>, b: seq<Found>)
    ensures Whats(a + b) == Whats(a) + Whats(b)
  {
  }

  lemma WhatsAround(guard: bool, found: seq<Found>)
    ensures Whats(Around(guard, found)) == Whats(found)
  {
  }

  lemma WhatsBare(findings: seq<Finding>)
    ensures Whats(Bare(findings)) == findings
  {
  }

  lemma EveryLocalCons(rules: Rules, owner: Node, first: Node, rest: seq<Node>)
    requires Below([first] + rest, owner) && Below(rest, owner)
    ensures EveryLocalIn(rules, owner, [first] + rest) == EveryLocal(rules, first) + EveryLocalIn(rules, owner, rest)
    ensures QuietTestsIn(rules, owner, [first] + rest) <==> QuietTests(rules, first) && QuietTestsIn(rules, owner, rest)
  {
    assert ([first] + rest)[1..] == rest;
  }

  lemma {:induction false} EveryLocalJoin(rules: Rules, owner: Node, a: seq<Node>, b: seq<Node>)
    requires Below(a, owner) && Below(b, owner) && Below(a + b, owner)
    ensures EveryLocalIn(rules, owner, a + b) == EveryLocalIn(rules, owner, a) + EveryLocalIn(rules, owner, b)
    ensures QuietTestsIn(rules, owner, a + b) <==> QuietTestsIn(rules, owner, a) && QuietTestsIn(rules, owner, b)
    decreases |a|
  {
    if a == [] {
      assert a + b == b;
    } else {
      JoinSplits(a, b);
      EveryLocalJoin(rules, owner, a[1..], b);
      EveryLocalCons(rules, owner, a[0], a[1..] + b);
      EveryLocalCons(rules, owner, a[0], a[1..]);
      Assoc(EveryLocal(rules, a[0]), EveryLocalIn(rules, owner, a[1..]), EveryLocalIn(rules, owner, b));
    }
  }

  lemma JoinSplits(a: seq<Node>, b: seq<Node>)
    requires a != []
    ensures a + b == [a[0]] + (a[1..] + b) && a == [a[0]] + a[1..]
  {
  }

  /** Two lists neither of which is longer than its counterpart join to the counterparts'
      join exactly when both are equal to them. */
  lemma JoinEqual(a: seq<Finding>, b: seq<Finding>, c: seq<Finding>, d: seq<Finding>)
    requires |a| <= |c| && |b| <= |d|
    ensures a + b == c + d <==> a == c && b == d
    ensures |a + b| <= |c + d| && (|a + b| == |c + d| ==> |a| == |c| && |b| == |d|)
  {
    if a + b == c + d {
      assert a == (a + b)[..|a|] && c == (c + d)[..|c|];
      assert b == (a + b)[|a|..] && d == (c + d)[|c|..];
    }
  }

  /** The visitor finds at most what there is, and all of it, in order, exactly when no test
      of an `if` it comes to gives rise to anything. */
  lemma {:induction false} FindsExactly(rules: Rules, node: Node)
    ensures |Whats(Occurrences(rules, node))| <= |EveryLocal(rules, node)|
    ensures Whats(Occurrences(rules, node)) == EveryLocal(rules, node) <==> QuietTests(rules, node)
    decreases node, 1, 0
  {
    match node
    case If(_, _, _) => FindsInIf(rules, node);
    case Try(_, _, _, _) => FindsInTry(rules, node);
    case _ =>
      FindsExactlyIn(rules, node, Children(node));
      var own := Local(rules, node);
      WhatsJoin(Bare(own), OccurrencesIn(rules, node, Children(node)));
      WhatsBare(own);
      JoinEqual(own, Whats(OccurrencesIn(rules, node, Children(node))), own, EveryLocalIn(rules, node, Children(node)));
  }

  lemma {:induction false} FindsExactlyIn(rules: Rules, owner: Node, nodes: seq<Node>)
    requires Below(nodes, owner)
    ensures |Whats(OccurrencesIn(rules, owner, nodes))| <= |EveryLocalIn(rules, owner, nodes)|
    ensures Whats(OccurrencesIn(rules, owner, nodes)) == EveryLocalIn(rules, owner, nodes) <==> QuietTestsIn(rules, owner, nodes)
    decreases owner, 0, |nodes|
  {
    if nodes != [] {
      FindsExactly(rules, nodes[0]);
      FindsExactlyIn(rules, owner, nodes[1..]);
      var a, b := Occurrences(rules, nodes[0]), OccurrencesIn(rules, owner, nodes[1..]);
      WhatsJoin(a, b);
      JoinEqual(Whats(a), Whats(b), EveryLocal(rules, nodes[0]), EveryLocalIn(rules, owner, nodes[1..]));
    }
  }

  lemma IfEvery(rules: Rules, node: Node)
    requires node.If?
    ensures EveryLocal(rules, node) == EveryLocal(rules, node.test) + EveryLocalIn(rules, node, Branches(node))
  {
    assert Children(node) == [node.test] + Branches(node);
    EveryLocalCons(rules, node, node.test, Branches(node));
    assert Local(rules, node) == [];
  }

  lemma {:induction false} FindsInIf(rules: Rules, node: Node)
    requires node.If?
    ensures |Whats(Occurrences(rules, node))| <= |EveryLocal(rules, node)|
    ensures Whats(Occurrences(rules, node)) == EveryLocal(rules, node) <==> QuietTests(rules, node)
    decreases node, 0, |Branches(node)| + 1
  {
    var found := OccurrencesIn(rules, node, Branches(node));
    FindsExactlyIn(rules, node, Branches(node));
    WhatsAround(IsPlatformTest(node.test), found);
    IfEvery(rules, node);
    JoinEqual([], Whats(found), EveryLocal(rules, node.test), EveryLocalIn(rules, node, Branches(node)));
    assert [] + Whats(found) == Whats(found);
  }

  lemma {:induction false} FindsInTry(rules: Rules, node: Node)
    requires node.Try?
    ensures |Whats(Occurrences(rules, node))| <= |EveryLocal(rules, node)|
    ensures Whats(Occurrences(rules, node)) == EveryLocal(rules, node) <==> QuietTests(rules, node)
    decreases node, 0, |node.body| + |AfterTry(node)| + 1
  {
    var a, b := OccurrencesIn(rules, node, node.body), OccurrencesIn(rules, node, AfterTry(node));
    FindsExactlyIn(rules, node, node.body);
    FindsExactlyIn(rules, node, AfterTry(node));
    WhatsAround(Handles(node.handlers), a);
    WhatsJoin(Around(Handles(node.handlers), a), b);
    TryEvery(rules, node);
    JoinEqual(Whats(a), Whats(b), EveryLocalIn(rules, node, node.body), EveryLocalIn(rules, node, AfterTry(node)));
  }

  lemma TryEvery(rules: Rules, node: Node)
    requires node.Try?
    ensures EveryLocal(rules, node) == EveryLocalIn(rules, node, node.body) + EveryLocalIn(rules, node, AfterTry(node))
    ensures QuietTests(rules, node) <==> QuietTestsIn(rules, node, node.body) && QuietTestsIn(rules, node, AfterTry(node))
  {
    assert Children(node) == node.body + AfterTry(node);
    EveryLocalJoin(rules, node, node.body, AfterTry(node));
    assert Local(rules, node) == [];
  }

  /** The test `os.attr()`. */
  function OsTest(attr: string): Node { Call(1, Attribute(1, Name("os"), attr), [], []) }

  const IDLE: Node := Other([])

  lemma InOne(rules: Rules, owner: Node, child: Node)
    requires Below([child], owner)
    ensures EveryLocalIn(rules, owner, [child]) == EveryLocal(rules, child)
    ensures OccurrencesIn(rules, owner, [child]) == Occurrences(rules, child)
  {
    var none: seq<Node> := [];
    assert [child][1..] == none;
    assert EveryLocalIn(rules, owner, none) == [] && OccurrencesIn(rules, owner, none) == [];
  }

  lemma NameIsSilent(rules: Rules, id: string)
    ensures EveryLocal(rules, Name(id)) == []
  {
    assert Children(Name(id)) == [];
  }

  lemma IdleIsSilent(rules: Rules)
    ensures Occurrences(rules, IDLE) == []
  {
    assert Children(IDLE) == [];
    assert Local(rules, IDLE) == [];
  }

  /** An attribute of a name gives rise to what it does by itself. */
  lemma AttributeEvery(rules: Rules, id: string, attr: string)
    ensures EveryLocal(rules, Attribute(1, Name(id), attr)) == Local(rules, Attribute(1, Name(id), attr))
  {
    var node := Attribute(1, Name(id), attr);
    NameIsSilent(rules, id);
    InOne(rules, node, Name(id));
    assert Children(node) == [Name(id)];
  }

  /** A call without arguments gives rise to what the function called does. */
  lemma PlainCall(rules: Rules, func: Node)
    ensures EveryLocal(rules, Call(1, func, [], [])) == EveryLocal(rules, func)
  {
    var call := Call(1, func, [], []);
    InOne(rules, call, func);
    assert Children(call) == [func];
    assert Local(rules, call) == [];
  }

  /** `if os.geteuid(): pass` and every tree like it: nothing is reported although the tree
      holds an unguarded use, and with it the exit code is 0 however severe the use is. */
  lemma OsTestMissed(rules: Rules, attr: string)
    requires attr in rules.osAttrs
    ensures var tree := If(OsTest(attr), [IDLE], []);
            && Occurrences(rules, tree) == [] && !Blocks(rules, tree)
            && EveryLocal(rules, tree.test) == [Finding(rules.osAttrs[attr], "posix-os-api", 1, "os." + attr)]
  {
    var tree := If(OsTest(attr), [IDLE], []);
    AttributeEvery(rules, "os", attr);
    PlainCall(rules, Attribute(1, Name("os"), attr));
    IdleIsSilent(rules);
    InOne(rules, tree, IDLE);
    NothingAround(rules, tree);
  }

  lemma NothingAround(rules: Rules, tree: Node)
    requires tree.If? && OccurrencesIn(rules, tree, tree.body) == [] && tree.orelse == []
    ensures Occurrences(rules, tree) == []
  {
    assert Branches(tree) == tree.body;
  }
}
