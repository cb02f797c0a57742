/** scripts/coverage_to_xlsx.py, `build`: a row that says "As G-16" takes over what that row
    resolved to, in place and in two passes. */
module Inheritance {
  import opened Text

  /** One list for each row. */
  type Lists = seq<seq<string>>

  /** Which rows refer to which: the ids of the rows, and each row's references. */
  datatype Graph = Graph(ids: seq<string>, refs: seq<seq<string>>)

  predicate Fits(g: Graph, ls: Lists) { |g.ids| == |g.refs| == |ls| }

  /** `by_id.get(id)`: the last row with this id. */
  function RowOf(ids: seq<string>, id: string): (k: Option<nat>)
    ensures k.Some? ==> k.value < |ids| && ids[k.value] == id && forall j :: k.value < j < |ids| ==> ids[j] != id
    ensures k.None? ==> id !in ids
  {
    if ids == [] then None
    else if ids[|ids| - 1] == id then Some(|ids| - 1)
    else RowOf(ids[..|ids| - 1], id)
  }

  /** `a.extend(x for x in b if x not in a)`: the test sees what was already taken. */
  function ExtendNew(a: seq<string>, b: seq<string>): seq<string>
    decreases |b|
  {
    if b == [] then a else ExtendNew(if b[0] in a then a else a + [b[0]], b[1..])
  }

  /** Row r after its references from the j-th on. */
  function Deferred(g: Graph, ls: Lists, r: nat, refs: seq<string>): (t: Lists)
    requires Fits(g, ls) && r < |ls|
    ensures |t| == |ls|
    decreases |refs|
  {
    if refs == [] then ls
    else match RowOf(g.ids, refs[0])
      case Some(k) => Deferred(g, if k == r then ls else ls[r := ExtendNew(ls[r], ls[k])], r, refs[1..])
      case None => Deferred(g, ls, r, refs[1..])
  }

  /** One pass over the first n rows. */
  function Pass(g: Graph, ls: Lists, n: nat): (t: Lists)
    requires Fits(g, ls) && n <= |ls|
    ensures |t| == |ls|
  {
    if n == 0 then ls else Deferred(g, Pass(g, ls, n - 1), n - 1, g.refs[n - 1])
  }

  function Passes(g: Graph, ls: Lists, k: nat): (t: Lists)
    requires Fits(g, ls)
    ensures |t| == |ls|
  {
    if k == 0 then ls else Pass(g, Passes(g, ls, k - 1), |ls|)
  }

  // ---- extending

  lemma {:induction false} ExtendKeeps(a: seq<string>, b: seq<string>)
    ensures |a| <= |ExtendNew(a, b)| && ExtendNew(a, b)[..|a|] == a
    decreases |b|
  {
    if b != [] {
      var a' := if b[0] in a then a else a + [b[0]];
      ExtendKeeps(a', b[1..]);
      assert ExtendNew(a, b)[..|a|] == ExtendNew(a, b)[..|a'|][..|a|] == a;
    }
  }

  /** Exactly the elements of both. */
  lemma {:induction false} ExtendHolds(a: seq<string>, b: seq<string>, x: string)
    ensures x in ExtendNew(a, b) <==> x in a || x in b
    decreases |b|
  {
    if b != [] {
      ExtendHolds(if b[0] in a then a else a + [b[0]], b[1..], x);
      assert x in b <==> x == b[0] || x in b[1..];
    }
  }

  lemma {:induction false} ExtendNoDups(a: seq<string>, b: seq<string>)
    ensures NoDups(ExtendNew(a, b)) <==> NoDups(a)
    decreases |b|
  {
    if b != [] {
      var a' := if b[0] in a then a else a + [b[0]];
      ExtendNoDups(a', b[1..]);
      assert NoDups(a') <==> NoDups(a) by {
        assert forall i :: 0 <= i < |a| ==> a'[i] == a[i];
      }
    }
  }

  /** Where x first stands, or the length. */
  function FirstOf(s: seq<string>, x: string): (i: nat)
    ensures i <= |s| && (i < |s| ==> s[i] == x) && (i == |s| <==> x !in s) && forall j :: 0 <= j < i ==> s[j] != x
  {
    if s == [] || s[0] == x then 0 else 1 + FirstOf(s[1..], x)
  }

  lemma FirstOfMore(a: seq<string>, more: seq<string>, x: string)
    requires x in a
    ensures FirstOf(a + more, x) == FirstOf(a, x)
  {
    var i, j := FirstOf(a, x), FirstOf(a + more, x);
    assert (a + more)[i] == x;
  }

  lemma FirstOfNew(a: seq<string>, x: string)
    requires x !in a
    ensures FirstOf(a + [x], x) == |a|
  {
    assert (a + [x])[|a|] == x;
  }

  /** What is new stands behind what was there, in the order in which it first comes. */
  lemma {:induction false} ExtendOrder(a: seq<string>, b: seq<string>, x: string, y: string)
    requires x in b && y in b && x !in a && y !in a
    ensures var e := ExtendNew(a, b); FirstOf(e, x) < FirstOf(e, y) <==> FirstOf(b, x) < FirstOf(b, y)
    decreases |b|
  {
    if b[0] == x || b[0] == y {
      if x != y { NewComesFirst(a, b, if b[0] == x then y else x); }
    } else {
      ExtendOrder(if b[0] in a then a else a + [b[0]], b[1..], x, y);
    }
  }

  lemma NewComesFirst(a: seq<string>, b: seq<string>, y: string)
    requires b != [] && b[0] !in a && y !in a && y in b && y != b[0]
    ensures FirstOf(ExtendNew(a, b), b[0]) < FirstOf(ExtendNew(a, b), y)
  {
    var front, e := a + [b[0]], ExtendNew(a, b);
    ExtendKeeps(front, b[1..]);
    assert e == front + e[|front|..];
    FirstOfNew(a, b[0]);
    FirstOfMore(front, e[|front|..], b[0]);
    assert forall j :: 0 <= j < |front| ==> e[j] == front[j];
  }

  /** What the references bring to row r, one after the other. */
  function Brought(g: Graph, ls: Lists, r: nat, refs: seq<string>): seq<string>
    requires Fits(g, ls)
  {
    if refs == [] then [] else
      var k := RowOf(g.ids, refs[0]);
      (if k.Some? && k.value != r then ls[k.value] else []) + Brought(g, ls, r, refs[1..])
  }

  lemma {:induction false} ExtendTwice(a: seq<string>, b: seq<string>, c: seq<string>)
    ensures ExtendNew(ExtendNew(a, b), c) == ExtendNew(a, b + c)
    decreases |b|
  {
    if b == [] {
      assert b + c == c;
    } else {
      assert (b + c)[0] == b[0] && (b + c)[1..] == b[1..] + c;
      ExtendTwice(if b[0] in a then a else a + [b[0]], b[1..], c);
    }
  }

  lemma {:induction false} BroughtOthers(g: Graph, ls: Lists, next: Lists, r: nat, refs: seq<string>)
    requires Fits(g, ls) && Fits(g, next) && forall q :: 0 <= q < |ls| && q != r ==> next[q] == ls[q]
    ensures Brought(g, next, r, refs) == Brought(g, ls, r, refs)
    decreases |refs|
  {
    if refs != [] { BroughtOthers(g, ls, next, r, refs[1..]); }
  }

  /** Reference after reference is the same as all that they bring at once, in their order. */
  lemma {:induction false} DeferredIsBrought(g: Graph, ls: Lists, r: nat, refs: seq<string>)
    requires Fits(g, ls) && r < |ls|
    ensures Deferred(g, ls, r, refs) == ls[r := ExtendNew(ls[r], Brought(g, ls, r, refs))]
    decreases |refs|
  {
    if refs == [] {
      assert ls[r := ls[r]] == ls;
    } else {
      var k := RowOf(g.ids, refs[0]);
      if k.Some? && k.value != r {
        var next := ls[r := ExtendNew(ls[r], ls[k.value])];
        DeferredIsBrought(g, next, r, refs[1..]);
        BroughtOthers(g, ls, next, r, refs[1..]);
        ExtendTwice(ls[r], ls[k.value], Brought(g, ls, r, refs[1..]));
      } else {
        DeferredIsBrought(g, ls, r, refs[1..]);
        assert [] + Brought(g, ls, r, refs[1..]) == Brought(g, ls, r, refs[1..]);
      }
    }
  }

  // ---- what every pass keeps

  /** Each list still begins as it did, and repeats an element only if it did. */
  ghost predicate Grown(ls: Lists, t: Lists) {
    |t| == |ls| && forall r :: 0 <= r < |ls| ==> Longer(ls[r], t[r])
  }

  ghost predicate Longer(a: seq<string>, b: seq<string>) {
    |a| <= |b| && b[..|a|] == a && (NoDups(b) <==> NoDups(a))
  }

  lemma GrownTrans(a: Lists, b: Lists, c: Lists)
    requires Grown(a, b) && Grown(b, c)
    ensures Grown(a, c)
  {
  }

  lemma LongerHolds(a: seq<string>, b: seq<string>, x: string)
    requires Longer(a, b) && x in a
    ensures x in b
  {
  }

  lemma GrownSelf(ls: Lists)
    ensures Grown(ls, ls)
  {
  }

  lemma GrownOne(ls: Lists, r: nat, more: seq<string>)
    requires r < |ls|
    ensures Grown(ls, ls[r := ExtendNew(ls[r], more)])
  {
    ExtendKeeps(ls[r], more);
    ExtendNoDups(ls[r], more);
    GrownSelf(ls);
  }

  lemma {:induction false} DeferredGrows(g: Graph, ls: Lists, r: nat, refs: seq<string>)
    requires Fits(g, ls) && r < |ls|
    ensures Grown(ls, Deferred(g, ls, r, refs))
    decreases |refs|
  {
    GrownSelf(ls);
    if refs != [] {
      var k := RowOf(g.ids, refs[0]);
      if k.Some? && k.value != r {
        var next := ls[r := ExtendNew(ls[r], ls[k.value])];
        GrownOne(ls, r, ls[k.value]);
        DeferredGrows(g, next, r, refs[1..]);
        GrownTrans(ls, next, Deferred(g, ls, r, refs));
      } else {
        DeferredGrows(g, ls, r, refs[1..]);
      }
    }
  }

  lemma {:induction false} PassGrows(g: Graph, ls: Lists, n: nat)
    requires Fits(g, ls) && n <= |ls|
    ensures Grown(ls, Pass(g, ls, n))
  {
    GrownSelf(ls);
    if n > 0 {
      PassGrows(g, ls, n - 1);
      DeferredGrows(g, Pass(g, ls, n - 1), n - 1, g.refs[n - 1]);
      GrownTrans(ls, Pass(g, ls, n - 1), Pass(g, ls, n));
    }
  }

  /** However many passes: a row's own entries stay in front, and nothing is repeated that was
      not. */
  lemma {:induction false} PassesGrow(g: Graph, ls: Lists, k: nat)
    requires Fits(g, ls)
    ensures Grown(ls, Passes(g, ls, k))
  {
    GrownSelf(ls);
    if k > 0 {
      PassesGrow(g, ls, k - 1);
      PassGrows(g, Passes(g, ls, k - 1), |ls|);
      GrownTrans(ls, Passes(g, ls, k - 1), Passes(g, ls, k));
    }
  }

  // ---- what is covered

  /** Row r refers to row m, another one. */
  ghost predicate Refers(g: Graph, r: nat, m: nat)
    requires |g.ids| == |g.refs|
  {
    r < |g.refs| && m != r && exists j :: 0 <= j < |g.refs[r]| && RowOf(g.ids, g.refs[r][j]) == Some(m)
  }

  /** Row s is at most k references away from row r. */
  ghost predicate Within(g: Graph, r: nat, s: nat, k: nat)
    requires |g.ids| == |g.refs|
    decreases k
  {
    r == s || (k > 0 && exists m: nat :: Refers(g, r, m) && Within(g, m, s, k - 1))
  }

  /** k passes cover k references, whatever the order of the rows. */
  lemma PassesCover(g: Graph, ls: Lists, k: nat, r: nat, s: nat, x: string)
    requires Fits(g, ls) && r < |ls| && s < |ls| && Within(g, r, s, k) && x in ls[s]
    ensures x in Passes(g, ls, k)[r]
  {
    WithinArrives(g, r, s, k);
    ArrivesCarries(g, ls, r, s, k, x);
  }

  // ---- where entries come from

  /** Some row that r leads to held x at the start. */
  ghost predicate Origin(g: Graph, ls: Lists, r: nat, x: string)
    requires Fits(g, ls)
  {
    exists k: nat, s: nat :: s < |ls| && Within(g, r, s, k) && x in ls[s]
  }

  ghost predicate Traced(g: Graph, ls: Lists, t: Lists)
    requires Fits(g, ls)
  {
    |t| == |ls| && forall r, x :: 0 <= r < |t| && x in t[r] ==> Origin(g, ls, r, x)
  }

  lemma OriginThrough(g: Graph, ls: Lists, r: nat, m: nat, x: string)
    requires Fits(g, ls) && Refers(g, r, m) && Origin(g, ls, m, x)
    ensures Origin(g, ls, r, x)
  {
    var k: nat, s: nat :| s < |ls| && Within(g, m, s, k) && x in ls[s];
    assert Within(g, r, s, k + 1);
  }

  lemma TracedOne(g: Graph, ls: Lists, t: Lists, r: nat, m: nat)
    requires Fits(g, ls) && Traced(g, ls, t) && r < |t| && m < |t| && Refers(g, r, m)
    ensures Traced(g, ls, t[r := ExtendNew(t[r], t[m])])
  {
    forall x | x in ExtendNew(t[r], t[m])
      ensures Origin(g, ls, r, x)
    {
      ExtendHolds(t[r], t[m], x);
      if x in t[m] {
        OriginThrough(g, ls, r, m, x);
      }
    }
  }

  lemma {:induction false} DeferredTraced(g: Graph, ls: Lists, t: Lists, r: nat, j: nat)
    requires Fits(g, ls) && Traced(g, ls, t) && r < |t| && j <= |g.refs[r]|
    ensures Traced(g, ls, Deferred(g, t, r, g.refs[r][j..]))
    decreases |g.refs[r]| - j
  {
    if j < |g.refs[r]| {
      var refs := g.refs[r][j..];
      assert refs[1..] == g.refs[r][j + 1..] && refs[0] == g.refs[r][j];
      var k := RowOf(g.ids, refs[0]);
      if k.Some? && k.value != r {
        TracedOne(g, ls, t, r, k.value);
        DeferredTraced(g, ls, t[r := ExtendNew(t[r], t[k.value])], r, j + 1);
      } else {
        DeferredTraced(g, ls, t, r, j + 1);
      }
    }
  }

  lemma {:induction false} PassTraced(g: Graph, ls: Lists, t: Lists, n: nat)
    requires Fits(g, ls) && Traced(g, ls, t) && n <= |t|
    ensures Traced(g, ls, Pass(g, t, n))
  {
    if n > 0 {
      PassTraced(g, ls, t, n - 1);
      DeferredTraced(g, ls, Pass(g, t, n - 1), n - 1, 0);
      assert g.refs[n - 1][0..] == g.refs[n - 1];
    }
  }

  /** However many passes, a row gains only entries of rows it leads to. */
  lemma {:induction false} PassesTraced(g: Graph, ls: Lists, k: nat)
    requires Fits(g, ls)
    ensures Traced(g, ls, Passes(g, ls, k))
  {
    if k == 0 {
      forall r: nat, x | r < |ls| && x in ls[r]
        ensures Origin(g, ls, r, x)
      {
        assert Within(g, r, r, 0);
      }
    } else {
      PassesTraced(g, ls, k - 1);
      PassTraced(g, ls, Passes(g, ls, k - 1), |ls|);
    }
  }

  lemma {:induction false} SettledCovers(g: Graph, t: Lists, r: nat, s: nat, k: nat, x: string)
    requires Fits(g, t) && Pass(g, t, |t|) == t && r < |t| && s < |t| && Within(g, r, s, k) && x in t[s]
    ensures x in t[r]
    decreases k
  {
    if r != s {
      var m: nat :| Refers(g, r, m) && Within(g, m, s, k - 1);
      SettledCovers(g, t, m, s, k - 1, x);
      PassExactly(g, t, r, x);
    }
  }

  /** Once a pass changes nothing, each row holds exactly what the rows it leads to held at the
      start. */
  lemma SettledIsClosure(g: Graph, ls: Lists, k: nat, r: nat, x: string)
    requires Fits(g, ls) && r < |ls| && Pass(g, Passes(g, ls, k), |ls|) == Passes(g, ls, k)
    ensures x in Passes(g, ls, k)[r] <==> Origin(g, ls, r, x)
  {
    var t := Passes(g, ls, k);
    PassesTraced(g, ls, k);
    if Origin(g, ls, r, x) {
      var d: nat, s: nat :| s < |ls| && Within(g, r, s, d) && x in ls[s];
      PassesGrow(g, ls, k);
      LongerHolds(ls[s], t[s], x);
      SettledCovers(g, t, r, s, d, x);
    }
  }

  // ---- exactly what is carried

  /** What stands in row s arrives at row r in k passes: a row sees this pass's list of the
      rows before it and the last pass's list of the rows after it. */
  ghost predicate Arrives(g: Graph, r: nat, s: nat, k: nat)
    requires |g.ids| == |g.refs|
    decreases k, r
  {
    r == s || (k > 0 && (Arrives(g, r, s, k - 1) || exists m: nat :: Refers(g, r, m) && ArrivesFrom(g, r, m, s, k)))
  }

  ghost predicate ArrivesFrom(g: Graph, r: nat, m: nat, s: nat, k: nat)
    requires |g.ids| == |g.refs| && k > 0
    decreases k, r, 0
  {
    if m < r then Arrives(g, m, s, k) else Arrives(g, m, s, k - 1)
  }

  lemma {:induction false} WithinArrives(g: Graph, r: nat, s: nat, k: nat)
    requires |g.ids| == |g.refs| && Within(g, r, s, k)
    ensures Arrives(g, r, s, k)
    decreases k
  {
    if r != s {
      var m: nat :| Refers(g, r, m) && Within(g, m, s, k - 1);
      WithinArrives(g, m, s, k - 1);
      assert ArrivesFrom(g, r, m, s, k);
    }
  }

  ghost predicate Brings(g: Graph, ls: Lists, r: nat, refs: seq<string>, x: string)
    requires Fits(g, ls)
  {
    exists j :: 0 <= j < |refs| && BringsOne(g, ls, r, refs[j], x)
  }

  ghost predicate BringsOne(g: Graph, ls: Lists, r: nat, id: string, x: string)
    requires Fits(g, ls)
  {
    var k := RowOf(g.ids, id);
    k.Some? && k.value != r && x in ls[k.value]
  }

  /** A row's references bring it what the rows referred to hold, and touch no other row. */
  lemma {:induction false} DeferredExactly(g: Graph, ls: Lists, r: nat, refs: seq<string>, x: string)
    requires Fits(g, ls) && r < |ls|
    ensures x in Deferred(g, ls, r, refs)[r] <==> x in ls[r] || Brings(g, ls, r, refs, x)
    ensures forall q :: 0 <= q < |ls| && q != r ==> Deferred(g, ls, r, refs)[q] == ls[q]
    decreases |refs|
  {
    if refs != [] {
      var k := RowOf(g.ids, refs[0]);
      var next := if k.Some? && k.value != r then ls[r := ExtendNew(ls[r], ls[k.value])] else ls;
      DeferredExactly(g, next, r, refs[1..], x);
      if k.Some? && k.value != r {
        ExtendHolds(ls[r], ls[k.value], x);
      }
      BringsCons(g, ls, next, r, refs, x);
    }
  }

  lemma BringsCons(g: Graph, ls: Lists, next: Lists, r: nat, refs: seq<string>, x: string)
    requires Fits(g, ls) && Fits(g, next) && refs != []
    requires forall q :: 0 <= q < |ls| && q != r ==> next[q] == ls[q]
    ensures Brings(g, ls, r, refs, x) <==> BringsOne(g, ls, r, refs[0], x) || Brings(g, next, r, refs[1..], x)
  {
    assert forall j :: 1 <= j < |refs| ==> refs[j] == refs[1..][j - 1];
    if j :| 0 <= j < |refs[1..]| && BringsOne(g, next, r, refs[1..][j], x) {
      assert BringsOne(g, ls, r, refs[j + 1], x);
    }
    if j :| 0 <= j < |refs| && BringsOne(g, ls, r, refs[j], x) {
      assert j > 0 ==> BringsOne(g, next, r, refs[1..][j - 1], x);
    }
  }

  /** Rows not yet reached are as before the pass; rows passed stay as they became. */
  lemma {:induction false} PassUntouched(g: Graph, ls: Lists, n: nat, r: nat)
    requires Fits(g, ls) && n <= |ls| && r < |ls|
    ensures Pass(g, ls, n)[r] == if r < n then Pass(g, ls, r + 1)[r] else ls[r]
  {
    if n > 0 && r != n - 1 {
      PassUntouched(g, ls, n - 1, r);
      DeferredExactly(g, Pass(g, ls, n - 1), n - 1, g.refs[n - 1], "");
    }
  }

  /** One pass, row by row. */
  lemma PassExactly(g: Graph, ls: Lists, r: nat, x: string)
    requires Fits(g, ls) && r < |ls|
    ensures x in Pass(g, ls, |ls|)[r]
       <==> x in ls[r] || exists m: nat :: m < |ls| && Refers(g, r, m) && x in (if m < r then Pass(g, ls, |ls|)[m] else ls[m])
  {
    var before := Pass(g, ls, r);
    PassUntouched(g, ls, |ls|, r);
    PassUntouched(g, ls, r, r);
    DeferredExactly(g, before, r, g.refs[r], x);
    forall m: nat | m < |ls|
      ensures before[m] == if m < r then Pass(g, ls, |ls|)[m] else ls[m]
    {
      PassUntouched(g, ls, r, m);
      PassUntouched(g, ls, |ls|, m);
    }
    BringsRefers(g, before, r, x);
  }

  lemma BringsRefers(g: Graph, ls: Lists, r: nat, x: string)
    requires Fits(g, ls) && r < |ls|
    ensures Brings(g, ls, r, g.refs[r], x) <==> exists m: nat :: m < |ls| && Refers(g, r, m) && x in ls[m]
  {
    if j :| 0 <= j < |g.refs[r]| && BringsOne(g, ls, r, g.refs[r][j], x) {
      assert Refers(g, r, RowOf(g.ids, g.refs[r][j]).value);
    }
    if m: nat :| m < |ls| && Refers(g, r, m) && x in ls[m] {
      var j :| 0 <= j < |g.refs[r]| && RowOf(g.ids, g.refs[r][j]) == Some(m);
      assert BringsOne(g, ls, r, g.refs[r][j], x);
    }
  }

  lemma {:induction false} ArrivesCarries(g: Graph, ls: Lists, r: nat, s: nat, k: nat, x: string)
    requires Fits(g, ls) && r < |ls| && s < |ls| && Arrives(g, r, s, k) && x in ls[s]
    ensures x in Passes(g, ls, k)[r]
    decreases k, r
  {
    if k == 0 {
    } else if r == s || Arrives(g, r, s, k - 1) {
      if r == s { assert Arrives(g, r, s, k - 1); }
      ArrivesCarries(g, ls, r, s, k - 1, x);
      PassExactly(g, Passes(g, ls, k - 1), r, x);
    } else {
      var m: nat :| Refers(g, r, m) && ArrivesFrom(g, r, m, s, k);
      ArrivesCarries(g, ls, m, s, if m < r then k else k - 1, x);
      PassExactly(g, Passes(g, ls, k - 1), r, x);
    }
  }

  ghost predicate Carried(g: Graph, ls: Lists, r: nat, k: nat, x: string)
    requires Fits(g, ls)
  {
    exists s: nat :: s < |ls| && Arrives(g, r, s, k) && x in ls[s]
  }

  lemma {:induction false} CarriedArrives(g: Graph, ls: Lists, r: nat, k: nat, x: string)
    requires Fits(g, ls) && r < |ls| && x in Passes(g, ls, k)[r]
    ensures Carried(g, ls, r, k, x)
    decreases k, r
  {
    if k == 0 {
      assert Arrives(g, r, r, 0);
    } else {
      var before := Passes(g, ls, k - 1);
      PassExactly(g, before, r, x);
      if x in before[r] {
        CarriedArrives(g, ls, r, k - 1, x);
        var s: nat :| s < |ls| && Arrives(g, r, s, k - 1) && x in ls[s];
        assert Arrives(g, r, s, k);
      } else {
        var m: nat :| m < |ls| && Refers(g, r, m) && x in (if m < r then Passes(g, ls, k)[m] else before[m]);
        CarriedArrives(g, ls, m, if m < r then k else k - 1, x);
        var s: nat :| s < |ls| && Arrives(g, m, s, if m < r then k else k - 1) && x in ls[s];
        assert ArrivesFrom(g, r, m, s, k);
      }
    }
  }

  /** A row holds after k passes exactly what stood in the rows from which it arrives. */
  lemma PassesExactly(g: Graph, ls: Lists, r: nat, k: nat, x: string)
    requires Fits(g, ls) && r < |ls|
    ensures x in Passes(g, ls, k)[r] <==> Carried(g, ls, r, k, x)
  {
    if x in Passes(g, ls, k)[r] {
      CarriedArrives(g, ls, r, k, x);
    }
    if s: nat :| s < |ls| && Arrives(g, r, s, k) && x in ls[s] {
      ArrivesCarries(g, ls, r, s, k, x);
    }
  }

  /** Everything that references lead to arrives in k passes. */
  ghost predicate AllArrive(g: Graph, k: nat)
    requires |g.ids| == |g.refs|
  {
    forall r: nat, s: nat, d: nat :: r < |g.ids| && s < |g.ids| && Within(g, r, s, d) ==> Arrives(g, r, s, k)
  }

  /** k passes give each row what the rows it leads to held. */
  ghost predicate Closes(g: Graph, ls: Lists, k: nat)
    requires Fits(g, ls)
  {
    forall r: nat, x :: r < |ls| ==> (x in Passes(g, ls, k)[r] <==> Origin(g, ls, r, x))
  }

  lemma ArrivingCloses(g: Graph, ls: Lists, k: nat)
    requires Fits(g, ls) && AllArrive(g, k)
    ensures Closes(g, ls, k)
  {
    PassesTraced(g, ls, k);
    forall r: nat, x | r < |ls| && Origin(g, ls, r, x)
      ensures x in Passes(g, ls, k)[r]
    {
      var d: nat, s: nat :| s < |ls| && Within(g, r, s, d) && x in ls[s];
      assert Carried(g, ls, r, k, x);
      PassesExactly(g, ls, r, k, x);
    }
  }

  /** k passes are enough for a set of rows, whatever the rows hold, exactly when all that
      references lead to arrives in k passes. */
  lemma EnoughExactly(g: Graph, k: nat)
    requires |g.ids| == |g.refs|
    ensures (forall ls :: Fits(g, ls) ==> Closes(g, ls, k)) <==> AllArrive(g, k)
  {
    if AllArrive(g, k) {
      forall ls | Fits(g, ls)
        ensures Closes(g, ls, k)
      {
        ArrivingCloses(g, ls, k);
      }
    }
    if forall ls :: Fits(g, ls) ==> Closes(g, ls, k) {
      forall r: nat, s: nat, d: nat | r < |g.ids| && s < |g.ids| && Within(g, r, s, d)
        ensures Arrives(g, r, s, k)
      {
        var ls: Lists := seq(|g.ids|, i requires 0 <= i < |g.ids| => if i == s then ["x"] else []);
        assert Fits(g, ls) && Closes(g, ls, k) && "x" in ls[s];
        assert Origin(g, ls, r, "x");
        PassesExactly(g, ls, r, k, "x");
        assert Carried(g, ls, r, k, "x");
      }
    }
  }

  /** When rows refer only to rows before them, one pass is enough. */
  lemma {:induction false} BackwardArrives(g: Graph, r: nat, s: nat, d: nat)
    requires |g.ids| == |g.refs| && Within(g, r, s, d)
    requires forall q: nat, m: nat :: Refers(g, q, m) ==> m < q
    ensures Arrives(g, r, s, 1)
    decreases d
  {
    if r != s {
      var m: nat :| Refers(g, r, m) && Within(g, m, s, d - 1);
      BackwardArrives(g, m, s, d - 1);
      assert ArrivesFrom(g, r, m, s, 1);
    }
  }

  // ---- the cited tests: copied whole, and only into an empty list

  function TestsDeferred(g: Graph, ls: Lists, r: nat, refs: seq<string>): (t: Lists)
    requires Fits(g, ls) && r < |ls|
    ensures |t| == |ls|
    decreases |refs|
  {
    if refs == [] then ls
    else match RowOf(g.ids, refs[0])
      case Some(k) => TestsDeferred(g, if k != r && ls[r] == [] then ls[r := ls[k]] else ls, r, refs[1..])
      case None => TestsDeferred(g, ls, r, refs[1..])
  }

  function TestsPass(g: Graph, ls: Lists, n: nat): (t: Lists)
    requires Fits(g, ls) && n <= |ls|
    ensures |t| == |ls|
  {
    if n == 0 then ls else TestsDeferred(g, TestsPass(g, ls, n - 1), n - 1, g.refs[n - 1])
  }

  function TestsPasses(g: Graph, ls: Lists, k: nat): (t: Lists)
    requires Fits(g, ls)
    ensures |t| == |ls|
  {
    if k == 0 then ls else TestsPass(g, TestsPasses(g, ls, k - 1), |ls|)
  }

  /** Lists that were there stay as they were; others may be filled. */
  ghost predicate Filled(ls: Lists, t: Lists) {
    |t| == |ls| && forall r :: 0 <= r < |ls| && ls[r] != [] ==> t[r] == ls[r]
  }

  lemma {:induction false} TestsDeferredFills(g: Graph, ls: Lists, r: nat, refs: seq<string>)
    requires Fits(g, ls) && r < |ls|
    ensures Filled(ls, TestsDeferred(g, ls, r, refs))
    decreases |refs|
  {
    if refs != [] {
      var k := RowOf(g.ids, refs[0]);
      TestsDeferredFills(g, if k.Some? && k.value != r && ls[r] == [] then ls[r := ls[k.value]] else ls, r, refs[1..]);
    }
  }

  lemma {:induction false} TestsPassFills(g: Graph, ls: Lists, n: nat)
    requires Fits(g, ls) && n <= |ls|
    ensures Filled(ls, TestsPass(g, ls, n))
  {
    if n > 0 {
      TestsPassFills(g, ls, n - 1);
      TestsDeferredFills(g, TestsPass(g, ls, n - 1), n - 1, g.refs[n - 1]);
    }
  }

  lemma {:induction false} TestsPassesFill(g: Graph, ls: Lists, k: nat)
    requires Fits(g, ls)
    ensures Filled(ls, TestsPasses(g, ls, k))
  {
    if k > 0 {
      TestsPassesFill(g, ls, k - 1);
      TestsPassFills(g, TestsPasses(g, ls, k - 1), |ls|);
    }
  }

  /** After k passes a row has tests if a row within k references had some. */
  lemma TestsPassesCover(g: Graph, ls: Lists, k: nat, r: nat, s: nat)
    requires Fits(g, ls) && r < |ls| && s < |ls| && Within(g, r, s, k) && ls[s] != []
    ensures TestsPasses(g, ls, k)[r] != []
  {
    WithinArrives(g, r, s, k);
    TestsArriveCarried(g, ls, r, s, k);
  }

  /** A row's tests are filled exactly when one of its references has some, and no other row
      is touched. */
  lemma {:induction false} TestsDeferredExactly(g: Graph, ls: Lists, r: nat, refs: seq<string>)
    requires Fits(g, ls) && r < |ls|
    ensures TestsDeferred(g, ls, r, refs)[r] != [] <==> ls[r] != [] || Offers(g, ls, r, refs)
    ensures forall q :: 0 <= q < |ls| && q != r ==> TestsDeferred(g, ls, r, refs)[q] == ls[q]
    decreases |refs|
  {
    if refs != [] {
      var k := RowOf(g.ids, refs[0]);
      var next := if k.Some? && k.value != r && ls[r] == [] then ls[r := ls[k.value]] else ls;
      TestsDeferredExactly(g, next, r, refs[1..]);
      OffersCons(g, ls, next, r, refs);
    }
  }

  /** They are those of the first of its references that has some. */
  lemma {:induction false} TestsOfFirst(g: Graph, ls: Lists, r: nat, refs: seq<string>, j: nat)
    requires Fits(g, ls) && r < |ls| && ls[r] == [] && j < |refs| && OffersOne(g, ls, r, refs[j])
    requires forall i :: 0 <= i < j ==> !OffersOne(g, ls, r, refs[i])
    ensures TestsDeferred(g, ls, r, refs) == ls[r := ls[RowOf(g.ids, refs[j]).value]]
    decreases |refs|
  {
    var k := RowOf(g.ids, refs[0]);
    if j == 0 {
      TestsStay(g, ls[r := ls[k.value]], r, refs[1..]);
    } else {
      assert !OffersOne(g, ls, r, refs[0]);
      assert k.Some? && k.value != r ==> ls[r := ls[k.value]] == ls;
      TestsOfFirst(g, ls, r, refs[1..], j - 1);
    }
  }

  lemma {:induction false} TestsStay(g: Graph, ls: Lists, r: nat, refs: seq<string>)
    requires Fits(g, ls) && r < |ls| && ls[r] != []
    ensures TestsDeferred(g, ls, r, refs) == ls
    decreases |refs|
  {
    if refs != [] { TestsStay(g, ls, r, refs[1..]); }
  }

  ghost predicate Offers(g: Graph, ls: Lists, r: nat, refs: seq<string>)
    requires Fits(g, ls)
  {
    exists j :: 0 <= j < |refs| && OffersOne(g, ls, r, refs[j])
  }

  ghost predicate OffersOne(g: Graph, ls: Lists, r: nat, id: string)
    requires Fits(g, ls)
  {
    var k := RowOf(g.ids, id);
    k.Some? && k.value != r && ls[k.value] != []
  }

  lemma OffersCons(g: Graph, ls: Lists, next: Lists, r: nat, refs: seq<string>)
    requires Fits(g, ls) && Fits(g, next) && refs != []
    requires forall q :: 0 <= q < |ls| && q != r ==> next[q] == ls[q]
    ensures Offers(g, ls, r, refs) <==> OffersOne(g, ls, r, refs[0]) || Offers(g, next, r, refs[1..])
  {
    assert forall j :: 1 <= j < |refs| ==> refs[j] == refs[1..][j - 1];
    if j :| 0 <= j < |refs[1..]| && OffersOne(g, next, r, refs[1..][j]) {
      assert OffersOne(g, ls, r, refs[j + 1]);
    }
    if j :| 0 <= j < |refs| && OffersOne(g, ls, r, refs[j]) {
      assert j > 0 ==> OffersOne(g, next, r, refs[1..][j - 1]);
    }
  }

  lemma {:induction false} TestsPassUntouched(g: Graph, ls: Lists, n: nat, r: nat)
    requires Fits(g, ls) && n <= |ls| && r < |ls|
    ensures TestsPass(g, ls, n)[r] == if r < n then TestsPass(g, ls, r + 1)[r] else ls[r]
  {
    if n > 0 && r != n - 1 {
      TestsPassUntouched(g, ls, n - 1, r);
      TestsDeferredExactly(g, TestsPass(g, ls, n - 1), n - 1, g.refs[n - 1]);
    }
  }

  lemma TestsPassExactly(g: Graph, ls: Lists, r: nat)
    requires Fits(g, ls) && r < |ls|
    ensures TestsPass(g, ls, |ls|)[r] != []
       <==> ls[r] != [] || exists m: nat :: m < |ls| && Refers(g, r, m) && (if m < r then TestsPass(g, ls, |ls|)[m] else ls[m]) != []
  {
    var before := TestsPass(g, ls, r);
    TestsPassUntouched(g, ls, |ls|, r);
    TestsPassUntouched(g, ls, r, r);
    TestsDeferredExactly(g, before, r, g.refs[r]);
    forall m: nat | m < |ls|
      ensures before[m] == if m < r then TestsPass(g, ls, |ls|)[m] else ls[m]
    {
      TestsPassUntouched(g, ls, r, m);
      TestsPassUntouched(g, ls, |ls|, m);
    }
    OffersRefers(g, before, r);
  }

  lemma OffersRefers(g: Graph, ls: Lists, r: nat)
    requires Fits(g, ls) && r < |ls|
    ensures Offers(g, ls, r, g.refs[r]) <==> exists m: nat :: m < |ls| && Refers(g, r, m) && ls[m] != []
  {
    if j :| 0 <= j < |g.refs[r]| && OffersOne(g, ls, r, g.refs[r][j]) {
      assert Refers(g, r, RowOf(g.ids, g.refs[r][j]).value);
    }
    if m: nat :| m < |ls| && Refers(g, r, m) && ls[m] != [] {
      var j :| 0 <= j < |g.refs[r]| && RowOf(g.ids, g.refs[r][j]) == Some(m);
      assert OffersOne(g, ls, r, g.refs[r][j]);
    }
  }

  lemma {:induction false} TestsArriveCarried(g: Graph, ls: Lists, r: nat, s: nat, k: nat)
    requires Fits(g, ls) && r < |ls| && s < |ls| && Arrives(g, r, s, k) && ls[s] != []
    ensures TestsPasses(g, ls, k)[r] != []
    decreases k, r
  {
    if k == 0 {
    } else if r == s || Arrives(g, r, s, k - 1) {
      if r == s { assert Arrives(g, r, s, k - 1); }
      TestsArriveCarried(g, ls, r, s, k - 1);
      TestsPassExactly(g, TestsPasses(g, ls, k - 1), r);
    } else {
      var m: nat :| Refers(g, r, m) && ArrivesFrom(g, r, m, s, k);
      TestsArriveCarried(g, ls, m, s, if m < r then k else k - 1);
      TestsPassExactly(g, TestsPasses(g, ls, k - 1), r);
    }
  }

  ghost predicate SomeArrive(g: Graph, ls: Lists, r: nat, k: nat)
    requires Fits(g, ls)
  {
    exists s: nat :: s < |ls| && Arrives(g, r, s, k) && ls[s] != []
  }

  lemma {:induction false} TestsCarriedArrive(g: Graph, ls: Lists, r: nat, k: nat)
    requires Fits(g, ls) && r < |ls| && TestsPasses(g, ls, k)[r] != []
    ensures SomeArrive(g, ls, r, k)
    decreases k, r
  {
    if k == 0 {
      assert Arrives(g, r, r, 0);
    } else {
      var before := TestsPasses(g, ls, k - 1);
      TestsPassExactly(g, before, r);
      if before[r] != [] {
        TestsCarriedArrive(g, ls, r, k - 1);
        var s: nat :| s < |ls| && Arrives(g, r, s, k - 1) && ls[s] != [];
        assert Arrives(g, r, s, k);
      } else {
        var m: nat :| m < |ls| && Refers(g, r, m) && (if m < r then TestsPasses(g, ls, k)[m] else before[m]) != [];
        TestsCarriedArrive(g, ls, m, if m < r then k else k - 1);
        var s: nat :| s < |ls| && Arrives(g, m, s, if m < r then k else k - 1) && ls[s] != [];
        assert ArrivesFrom(g, r, m, s, k);
      }
    }
  }

  /** After k passes a row has tests exactly when a row from which they arrive had some. */
  lemma TestsPassesExactly(g: Graph, ls: Lists, r: nat, k: nat)
    requires Fits(g, ls) && r < |ls|
    ensures TestsPasses(g, ls, k)[r] != [] <==> SomeArrive(g, ls, r, k)
  {
    if TestsPasses(g, ls, k)[r] != [] {
      TestsCarriedArrive(g, ls, r, k);
    }
    if s: nat :| s < |ls| && Arrives(g, r, s, k) && ls[s] != [] {
      TestsArriveCarried(g, ls, r, s, k);
    }
  }

  /** The list of some row that r leads to. */
  ghost predicate Copied(g: Graph, ls: Lists, r: nat, list: seq<string>)
    requires Fits(g, ls)
  {
    exists k: nat, s: nat :: s < |ls| && Within(g, r, s, k) && ls[s] == list
  }

  ghost predicate AllCopied(g: Graph, ls: Lists, t: Lists)
    requires Fits(g, ls)
  {
    |t| == |ls| && forall r :: 0 <= r < |t| ==> Copied(g, ls, r, t[r])
  }

  lemma CopiedThrough(g: Graph, ls: Lists, r: nat, m: nat, list: seq<string>)
    requires Fits(g, ls) && Refers(g, r, m) && Copied(g, ls, m, list)
    ensures Copied(g, ls, r, list)
  {
    var k: nat, s: nat :| s < |ls| && Within(g, m, s, k) && ls[s] == list;
    assert Within(g, r, s, k + 1);
  }

  lemma {:induction false} TestsDeferredCopied(g: Graph, ls: Lists, t: Lists, r: nat, j: nat)
    requires Fits(g, ls) && AllCopied(g, ls, t) && r < |t| && j <= |g.refs[r]|
    ensures AllCopied(g, ls, TestsDeferred(g, t, r, g.refs[r][j..]))
    decreases |g.refs[r]| - j
  {
    if j < |g.refs[r]| {
      var refs := g.refs[r][j..];
      assert refs[1..] == g.refs[r][j + 1..] && refs[0] == g.refs[r][j];
      var k := RowOf(g.ids, refs[0]);
      if k.Some? && k.value != r && t[r] == [] {
        CopiedThrough(g, ls, r, k.value, t[k.value]);
        TestsDeferredCopied(g, ls, t[r := t[k.value]], r, j + 1);
      } else {
        TestsDeferredCopied(g, ls, t, r, j + 1);
      }
    }
  }

  lemma {:induction false} TestsPassCopied(g: Graph, ls: Lists, t: Lists, n: nat)
    requires Fits(g, ls) && AllCopied(g, ls, t) && n <= |t|
    ensures AllCopied(g, ls, TestsPass(g, t, n))
  {
    if n > 0 {
      TestsPassCopied(g, ls, t, n - 1);
      TestsDeferredCopied(g, ls, TestsPass(g, t, n - 1), n - 1, 0);
      assert g.refs[n - 1][0..] == g.refs[n - 1];
    }
  }

  /** However many passes, a row's tests are those of one row it leads to. */
  lemma {:induction false} TestsPassesCopied(g: Graph, ls: Lists, k: nat)
    requires Fits(g, ls)
    ensures AllCopied(g, ls, TestsPasses(g, ls, k))
  {
    if k == 0 {
      forall r: nat | r < |ls|
        ensures Copied(g, ls, r, ls[r])
      {
        assert Within(g, r, r, 0);
      }
    } else {
      TestsPassesCopied(g, ls, k - 1);
      TestsPassCopied(g, ls, TestsPasses(g, ls, k - 1), |ls|);
    }
  }

  // ---- two passes are not enough for three references

  const CHAIN := Graph(["A", "B", "C", "D"], [["B"], ["C"], ["D"], []])

  lemma ChainRows()
    ensures RowOf(CHAIN.ids, "B") == Some(1) && RowOf(CHAIN.ids, "C") == Some(2) && RowOf(CHAIN.ids, "D") == Some(3)
  {
  }

  lemma DeferOne(g: Graph, ls: Lists, r: nat, id: string, k: nat)
    requires Fits(g, ls) && r < |ls| && RowOf(g.ids, id) == Some(k) && k != r && k < |ls|
    ensures Deferred(g, ls, r, [id]) == ls[r := ExtendNew(ls[r], ls[k])]
  {
  }

  lemma ChainPass(a: seq<string>, b: seq<string>, c: seq<string>, d: seq<string>)
    ensures Pass(CHAIN, [a, b, c, d], 4) == [ExtendNew(a, b), ExtendNew(b, c), ExtendNew(c, d), d]
  {
    ChainRows();
    DeferOne(CHAIN, [a, b, c, d], 0, "B", 1);
    DeferOne(CHAIN, [ExtendNew(a, b), b, c, d], 1, "C", 2);
    DeferOne(CHAIN, [ExtendNew(a, b), ExtendNew(b, c), c, d], 2, "D", 3);
    ChainPasses([a, b, c, d]);
  }

  lemma ChainPasses(ls: Lists)
    requires |ls| == 4
    ensures Pass(CHAIN, ls, 4)
         == Deferred(CHAIN, Deferred(CHAIN, Deferred(CHAIN, ls, 0, ["B"]), 1, ["C"]), 2, ["D"])
  {
    assert Pass(CHAIN, ls, 1) == Deferred(CHAIN, ls, 0, ["B"]);
    assert Pass(CHAIN, ls, 2) == Deferred(CHAIN, Pass(CHAIN, ls, 1), 1, ["C"]);
    assert Pass(CHAIN, ls, 3) == Deferred(CHAIN, Pass(CHAIN, ls, 2), 2, ["D"]);
  }

  lemma ChainDistance()
    ensures Within(CHAIN, 0, 3, 3)
  {
    ChainRows();
    assert Refers(CHAIN, 2, 3) by { assert CHAIN.refs[2][0] == "D"; }
    assert Refers(CHAIN, 1, 2) by { assert CHAIN.refs[1][0] == "C"; }
    assert Refers(CHAIN, 0, 1) by { assert CHAIN.refs[0][0] == "B"; }
    assert Within(CHAIN, 3, 3, 0);
    assert Within(CHAIN, 2, 3, 1);
    assert Within(CHAIN, 1, 3, 2);
  }

  lemma ChainTwice(x: string)
    ensures Passes(CHAIN, [[], [], [], [x]], 2) == [[], [x], [x], [x]]
  {
    var ls: Lists := [[], [], [], [x]];
    assert ExtendNew([], [x]) == [x] by { assert [x][1..] == []; }
    assert ExtendNew([x], [x]) == [x] by { assert [x][1..] == []; }
    ChainPass([], [], [], [x]);
    ChainPass([], [], [x], [x]);
    assert Passes(CHAIN, ls, 1) == Pass(CHAIN, ls, 4);
  }

  /** The last of four rows is three references from the first: two passes leave its entry
      out. */
  lemma ThreeAreNotCovered(x: string)
    ensures var ls: Lists := [[], [], [], [x]];
            && Within(CHAIN, 0, 3, 3) && x in ls[3]
            && x !in Passes(CHAIN, ls, 2)[0] && x in Passes(CHAIN, ls, 3)[0]
  {
    ChainDistance();
    ChainTwice(x);
    PassesCover(CHAIN, [[], [], [], [x]], 3, 0, 3, x);
  }
}
