/** scripts/coverage_to_xlsx.py, `build`: the inheritance loop on the row objects. */
module Rows {
  import opened Text
  import opened Inheritance

  class Row {
    const id: string
    /** The rows named in what the row says satisfies it, and in its tests. */
    const deferred: seq<string>
    const tested: seq<string>
    var portal: seq<string>
    var workspace: seq<string>
    var code: seq<string>
    var tests: seq<string>

    constructor (id: string, deferred: seq<string>, tested: seq<string>)
      ensures this.id == id && this.deferred == deferred && this.tested == tested
      ensures portal == workspace == code == tests == []
    {
      this.id, this.deferred, this.tested := id, deferred, tested;
      portal, workspace, code, tests := [], [], [], [];
    }

    /** The three lists take over what is new to them. */
    method Extend(src: Row)
      requires src != this
      modifies this
      ensures portal == ExtendNew(old(portal), src.portal)
      ensures workspace == ExtendNew(old(workspace), src.workspace)
      ensures code == ExtendNew(old(code), src.code)
      ensures tests == old(tests)
    {
      for i := 0 to |src.portal|
        invariant ExtendNew(portal, src.portal[i..]) == ExtendNew(old(portal), src.portal)
        invariant workspace == old(workspace) && code == old(code) && tests == old(tests)
      {
        if src.portal[i] !in portal { portal := portal + [src.portal[i]]; }
      }
      for i := 0 to |src.workspace|
        invariant ExtendNew(workspace, src.workspace[i..]) == ExtendNew(old(workspace), src.workspace)
        invariant portal == ExtendNew(old(portal), src.portal) && code == old(code) && tests == old(tests)
      {
        if src.workspace[i] !in workspace { workspace := workspace + [src.workspace[i]]; }
      }
      for i := 0 to |src.code|
        invariant ExtendNew(code, src.code[i..]) == ExtendNew(old(code), src.code)
        invariant portal == ExtendNew(old(portal), src.portal) && tests == old(tests)
        invariant workspace == ExtendNew(old(workspace), src.workspace)
      {
        if src.code[i] !in code { code := code + [src.code[i]]; }
      }
    }
  }

  datatype State = State(portal: Lists, workspace: Lists, code: Lists, tests: Lists)

  ghost function StateOf(rows: seq<Row>): State
    reads rows
  {
    State(seq(|rows|, i requires 0 <= i < |rows| reads rows => rows[i].portal),
          seq(|rows|, i requires 0 <= i < |rows| reads rows => rows[i].workspace),
          seq(|rows|, i requires 0 <= i < |rows| reads rows => rows[i].code),
          seq(|rows|, i requires 0 <= i < |rows| reads rows => rows[i].tests))
  }

  ghost predicate Distinct(rows: seq<Row>) { forall i, j :: 0 <= i < j < |rows| ==> rows[i] != rows[j] }

  function Ids(rows: seq<Row>): seq<string> { seq(|rows|, i requires 0 <= i < |rows| => rows[i].id) }

  function ListGraph(rows: seq<Row>): Graph {
    Graph(Ids(rows), seq(|rows|, i requires 0 <= i < |rows| => rows[i].deferred))
  }

  function TestGraph(rows: seq<Row>): Graph {
    Graph(Ids(rows), seq(|rows|, i requires 0 <= i < |rows| => rows[i].tested))
  }

  ghost predicate Indexes(rows: seq<Row>, byId: map<string, nat>) {
    forall id :: RowOf(Ids(rows), id) == if id in byId then Some(byId[id]) else None
  }

  /** The dictionary of the rows: a later row with the same id replaces an earlier one. */
  method Index(rows: seq<Row>) returns (byId: map<string, nat>)
    ensures Indexes(rows, byId)
  {
    byId := map[];
    for i := 0 to |rows|
      invariant Indexes(rows[..i], byId)
    {
      IdsGrow(rows, i);
      byId := byId[rows[i].id := i];
    }
    assert rows[..|rows|] == rows;
  }

  lemma IdsGrow(rows: seq<Row>, i: nat)
    requires i < |rows|
    ensures |Ids(rows[..i + 1])| == i + 1 && Ids(rows[..i + 1])[..i] == Ids(rows[..i]) && Ids(rows[..i + 1])[i] == rows[i].id
  {
  }

  /** One row after one reference. */
  method DeferOne(rows: seq<Row>, r: nat, k: nat)
    requires Distinct(rows) && r < |rows| && k < |rows| && k != r
    modifies rows[r]
    ensures var was, now := old(StateOf(rows)), StateOf(rows);
            && now.portal == was.portal[r := ExtendNew(was.portal[r], was.portal[k])]
            && now.workspace == was.workspace[r := ExtendNew(was.workspace[r], was.workspace[k])]
            && now.code == was.code[r := ExtendNew(was.code[r], was.code[k])]
            && now.tests == was.tests
  {
    rows[r].Extend(rows[k]);
  }

  method DeferLists(rows: seq<Row>, r: nat, byId: map<string, nat>)
    requires Distinct(rows) && Indexes(rows, byId) && r < |rows|
    modifies rows
    ensures var g, was, now := ListGraph(rows), old(StateOf(rows)), StateOf(rows);
            && now.portal == Deferred(g, was.portal, r, g.refs[r])
            && now.workspace == Deferred(g, was.workspace, r, g.refs[r])
            && now.code == Deferred(g, was.code, r, g.refs[r])
            && now.tests == was.tests
  {
    var refs := rows[r].deferred;
    ghost var g, was := ListGraph(rows), StateOf(rows);
    for j := 0 to |refs|
      invariant Deferred(g, StateOf(rows).portal, r, refs[j..]) == Deferred(g, was.portal, r, refs)
      invariant Deferred(g, StateOf(rows).workspace, r, refs[j..]) == Deferred(g, was.workspace, r, refs)
      invariant Deferred(g, StateOf(rows).code, r, refs[j..]) == Deferred(g, was.code, r, refs)
      invariant StateOf(rows).tests == was.tests
    {
      assert refs[j..][0] == refs[j] && refs[j..][1..] == refs[j + 1..];
      assert RowOf(g.ids, refs[j]) == if refs[j] in byId then Some(byId[refs[j]]) else None;
      if refs[j] in byId && rows[byId[refs[j]]] != rows[r] {
        DeferOne(rows, r, byId[refs[j]]);
      }
    }
  }

  method DeferTests(rows: seq<Row>, r: nat, byId: map<string, nat>)
    requires Distinct(rows) && Indexes(rows, byId) && r < |rows|
    modifies rows
    ensures var g, was, now := TestGraph(rows), old(StateOf(rows)), StateOf(rows);
            now == was.(tests := TestsDeferred(g, was.tests, r, g.refs[r]))
  {
    var refs := rows[r].tested;
    ghost var g, was := TestGraph(rows), StateOf(rows);
    for j := 0 to |refs|
      invariant TestsDeferred(g, StateOf(rows).tests, r, refs[j..]) == TestsDeferred(g, was.tests, r, refs)
      invariant StateOf(rows).(tests := was.tests) == was
    {
      assert refs[j..][0] == refs[j] && refs[j..][1..] == refs[j + 1..];
      assert RowOf(g.ids, refs[j]) == if refs[j] in byId then Some(byId[refs[j]]) else None;
      if refs[j] in byId && rows[byId[refs[j]]] != rows[r] && rows[r].tests == [] {
        CopyTests(rows, r, byId[refs[j]]);
      }
    }
  }

  method CopyTests(rows: seq<Row>, r: nat, k: nat)
    requires Distinct(rows) && r < |rows| && k < |rows|
    modifies rows[r]
    ensures var was, now := old(StateOf(rows)), StateOf(rows);
            now == was.(tests := was.tests[r := was.tests[k]])
  {
    rows[r].tests := rows[k].tests;
  }

  function PassOf(g: Graph, h: Graph, st: State, n: nat): State
    requires FitsState(g, h, st) && n <= |st.portal|
  {
    State(Pass(g, st.portal, n), Pass(g, st.workspace, n), Pass(g, st.code, n), TestsPass(h, st.tests, n))
  }

  predicate FitsState(g: Graph, h: Graph, st: State) {
    Fits(g, st.portal) && Fits(g, st.workspace) && Fits(g, st.code) && Fits(h, st.tests) && |g.ids| == |h.ids|
  }

  /** One pass over all rows, in their order. */
  method OnePass(rows: seq<Row>, byId: map<string, nat>)
    requires Distinct(rows) && Indexes(rows, byId)
    modifies rows
    ensures StateOf(rows) == PassOf(ListGraph(rows), TestGraph(rows), old(StateOf(rows)), |rows|)
  {
    ghost var g, h, was := ListGraph(rows), TestGraph(rows), StateOf(rows);
    for r := 0 to |rows|
      invariant StateOf(rows) == PassOf(g, h, was, r)
    {
      DeferLists(rows, r, byId);
      DeferTests(rows, r, byId);
    }
  }

  /** Two passes: the final lists are those of the specification, for which it is known
      exactly what k passes carry. */
  method Inherit(rows: seq<Row>)
    requires Distinct(rows)
    modifies rows
    ensures var g, h, was, now := ListGraph(rows), TestGraph(rows), old(StateOf(rows)), StateOf(rows);
            && now.portal == Passes(g, was.portal, 2)
            && now.workspace == Passes(g, was.workspace, 2)
            && now.code == Passes(g, was.code, 2)
            && now.tests == TestsPasses(h, was.tests, 2)
  {
    var byId := Index(rows);
    ghost var g, h, was := ListGraph(rows), TestGraph(rows), StateOf(rows);
    for k := 0 to 2
      invariant StateOf(rows).portal == Passes(g, was.portal, k)
      invariant StateOf(rows).workspace == Passes(g, was.workspace, k)
      invariant StateOf(rows).code == Passes(g, was.code, k)
      invariant StateOf(rows).tests == TestsPasses(h, was.tests, k)
    {
      OnePass(rows, byId);
    }
  }
}
