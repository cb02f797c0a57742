/** deploy/demo_data.py, `main`: sections and additions, each within the savepoint
    `demo_section`. */
module DemoRun {
  import opened Text
  import opened Savepoints

  const DEMO: string := "demo_section"

  /** A section, or an addition with its file's name. */
  datatype Unit = Unit(title: string, body: seq<Stmt>)

  predicate At(s: string, i: nat, part: string) { i + |part| <= |s| && s[i..i + |part|] == part }

  /** Upper and lower case apart: begins with "failed" or "error", or holds ": failed". */
  predicate ReportsFailure(line: string) {
    var text := Lower(line);
    At(text, 0, "failed") || At(text, 0, "error") || exists i :: 0 <= i < |text| && At(text, i, ": failed")
  }

  predicate AnyFailure(notes: seq<string>) { exists i :: 0 <= i < |notes| && ReportsFailure(notes[i]) }

  /** Whether a unit fails: by raising, or for an addition also by reporting it. */
  predicate Fails(unit: Unit, state: State, judged: bool) {
    var r := Meaning(unit.body, state, []);
    !r.ok || (judged && AnyFailure(r.notes))
  }

  function Kept(unit: Unit, state: State, judged: bool): State {
    if Fails(unit, state, judged) then state else Meaning(unit.body, state, []).state
  }

  /** What a run of units comes to: the state and the labels of those that failed. */
  datatype Sum = Sum(state: State, failures: seq<string>)

  function Label(unit: Unit, addition: bool): string { if addition then "addition " + unit.title else unit.title }

  function Add(sum: Sum, unit: Unit, judged: bool): Sum {
    Sum(Kept(unit, sum.state, judged), sum.failures + (if Fails(unit, sum.state, judged) then [Label(unit, judged)] else []))
  }

  function AddAll(sum: Sum, units: seq<Unit>, judged: bool): Sum
    decreases |units|
  {
    if units == [] then sum else AddAll(Add(sum, units[0], judged), units[1..], judged)
  }

  predicate Chosen(unit: Unit, only: set<string>, addition: bool) {
    !(addition && unit.title != "" && unit.title[0] == '_') && (only == {} || unit.title in only)
  }

  function Choose(units: seq<Unit>, only: set<string>, addition: bool): seq<Unit> {
    if units == [] then []
    else (if Chosen(units[0], only, addition) then [units[0]] else []) + Choose(units[1..], only, addition)
  }

  /** Everything the script runs: the stamping and the final sweep are no sections. */
  datatype Script = Script(sections: seq<Unit>, stampingBody: seq<Stmt>, additions: seq<Unit>, sweepBody: seq<Stmt>) {
    function Stamping(): Unit { Unit("stamping", stampingBody) }

    function Sweep(): Unit { Unit("final sweep", sweepBody) }
  }

  function SumOf(script: Script, only: set<string>, state: State): Sum {
    var a := AddAll(Sum(state, []), Choose(script.sections, only, false), false);
    var b := Add(a, script.Stamping(), false);
    var c := AddAll(b, Choose(script.additions, only, true), true);
    Add(c, script.Sweep(), false)
  }

  predicate Nests(unit: Unit) { WellNamed(unit.body) && Avoids(unit.body, DEMO) }

  predicate AllNest(units: seq<Unit>) { forall i :: 0 <= i < |units| ==> Nests(units[i]) }

  predicate ScriptNests(script: Script) {
    AllNest(script.sections) && Nests(script.Stamping()) && AllNest(script.additions) && Nests(script.Sweep())
  }

  /** A unit as it ends, within its savepoint. */
  function Ended(unit: Unit, state: State, stack: Stack): (r: Run)
    ensures |stack| < |r.stack| && r.stack[..|stack| + 1] == stack + [(DEMO, state)]
    ensures LastNamed(r.stack, DEMO) < |r.stack|
  {
    var r := Machine(unit.body, state, stack + [(DEMO, state)], []);
    OwnIsThere(stack, DEMO, state, r.stack);
    r
  }

  predicate FailsThere(unit: Unit, state: State, stack: Stack, judged: bool) {
    var r := Ended(unit, state, stack);
    !r.ok || (judged && AnyFailure(r.notes))
  }

  /** What a failing unit goes back to: the state at the latest `demo_section`. */
  function Left(unit: Unit, state: State, stack: Stack, judged: bool): State {
    var r := Ended(unit, state, stack);
    if FailsThere(unit, state, stack, judged) then r.stack[LastNamed(r.stack, DEMO)].1 else r.state
  }

  /** A unit whose names nest is a transaction. */
  lemma UnitMeans(unit: Unit, state: State, stack: Stack, judged: bool)
    requires Nests(unit)
    ensures FailsThere(unit, state, stack, judged) == Fails(unit, state, judged)
    ensures Left(unit, state, stack, judged) == Kept(unit, state, judged)
  {
    MachineMeans(unit.body, state, stack + [(DEMO, state)], []);
    OwnIsLatest(stack, DEMO, state, Ended(unit, state, stack).stack, unit.body);
  }

  /** One unit: into its savepoint, back on failure, committed on success. */
  method RunUnit(db: Db, unit: Unit, judged: bool, dry: bool) returns (failed: bool)
    modifies db
    ensures failed == FailsThere(unit, old(db.current), old(db.stack), judged)
    ensures db.current == Left(unit, old(db.current), old(db.stack), judged)
    ensures db.committed == if dry || failed then old(db.committed) else db.current
    ensures Nests(unit) ==> failed == Fails(unit, old(db.current), judged) && db.current == Kept(unit, old(db.current), judged)
  {
    db.Savepoint(DEMO);
    var notes, ok := Exec(db, unit.body, []);
    failed := !ok || (judged && AnyFailure(notes));
    OwnIsThere(old(db.stack), DEMO, old(db.current), db.stack);
    if failed {
      db.RollbackTo(DEMO);
    } else if !dry {
      db.Commit();
    }
    if Nests(unit) { UnitMeans(unit, old(db.current), old(db.stack), judged); }
  }

  method RunAll(db: Db, units: seq<Unit>, only: set<string>, judged: bool, dry: bool, failed: seq<string>) returns (failures: seq<string>)
    requires AllNest(units)
    modifies db
    ensures Sum(db.current, failures) == AddAll(Sum(old(db.current), failed), Choose(units, only, judged), judged)
    ensures dry ==> db.committed == old(db.committed)
  {
    failures := failed;
    for i := 0 to |units|
      invariant AddAll(Sum(db.current, failures), Choose(units[i..], only, judged), judged)
             == AddAll(Sum(old(db.current), failed), Choose(units, only, judged), judged)
      invariant dry ==> db.committed == old(db.committed)
    {
      ChooseNext(units, i, only, judged);
      if !Chosen(units[i], only, judged) {
        continue;
      }
      ghost var before := Sum(db.current, failures);
      AddAllCons(before, units[i], Choose(units[i + 1..], only, judged), judged);
      var bad := RunUnit(db, units[i], judged, dry);
      if bad {
        failures := failures + [Label(units[i], judged)];
      }
      assert Sum(db.current, failures) == Add(before, units[i], judged);
    }
    assert Choose(units[|units|..], only, judged) == [];
  }

  lemma ChooseNext(units: seq<Unit>, i: nat, only: set<string>, addition: bool)
    requires i < |units|
    ensures Choose(units[i..], only, addition)
         == (if Chosen(units[i], only, addition) then [units[i]] else []) + Choose(units[i + 1..], only, addition)
    ensures !Chosen(units[i], only, addition) ==> Choose(units[i..], only, addition) == Choose(units[i + 1..], only, addition)
  {
  }

  lemma AddAllCons(sum: Sum, unit: Unit, rest: seq<Unit>, judged: bool)
    ensures AddAll(sum, [unit] + rest, judged) == AddAll(Add(sum, unit, judged), rest, judged)
  {
  }

  /** The script: the units that are due take their turns; what is in the database at the end
      is what those that did not fail come to, one after the other with no savepoint at all, and
      nothing of a dry run; the exit code says whether any failed. */
  method RunScript(db: Db, script: Script, only: set<string>, dry: bool)
    returns (code: int, failures: seq<string>, ghost turns: seq<Turn>, ghost fails: seq<bool>)
    requires ScriptNests(script)
    modifies db
    ensures AreDue(script, only, turns) && Judged(turns, fails, old(db.current))
    ensures failures == Labels(turns, fails)
    ensures db.committed == db.current == if dry then old(db.committed) else Plainly(Passed(turns, fails), old(db.current))
    ensures code == if forall i :: 0 <= i < |fails| ==> !fails[i] then 0 else 1
  {
    ghost var sum := SumOf(script, only, old(db.current));
    turns, fails := TurnsOf(script, only, old(db.current));
    failures := RunAll(db, script.sections, only, false, dry, []);
    failures := RunAlways(db, script.Stamping(), dry, failures);
    failures := RunAll(db, script.additions, only, true, dry, failures);
    failures := RunAlways(db, script.Sweep(), dry, failures);
    assert failures == sum.failures;
    NoLabels(turns, fails);
    if dry {
      db.Rollback();
    }
    code := if failures != [] then 1 else 0;
  }

  // ---- whose turn it is, and what the turns come to

  /** A unit at its turn; additions are judged by what they report as well. */
  datatype Turn = Turn(unit: Unit, addition: bool)

  function Turns(units: seq<Unit>, addition: bool): seq<Turn> {
    seq(|units|, i requires 0 <= i < |units| => Turn(units[i], addition))
  }

  predicate Increasing(at: seq<nat>) { forall i, j :: 0 <= i < j < |at| ==> at[i] < at[j] }

  /** A unit is due when nothing is named or it is, and an addition only when its file's name does
      not begin with an underscore. */
  predicate IsDue(unit: Unit, only: set<string>, addition: bool) {
    && (only != {} ==> unit.title in only)
    && (addition ==> !("_" <= unit.title))
  }

  /** The units at these places, in order, are exactly those that are due. */
  ghost predicate DueAt(units: seq<Unit>, only: set<string>, addition: bool, due: seq<Unit>, at: seq<nat>) {
    && Increasing(at) && |due| == |at|
    && (forall j :: 0 <= j < |at| ==> Stands(units, due[j], at[j]))
    && (forall i :: 0 <= i < |units| ==> Listed(units, only, addition, at, i))
  }

  ghost predicate Stands(units: seq<Unit>, unit: Unit, i: nat) { i < |units| && unit == units[i] }

  predicate Listed(units: seq<Unit>, only: set<string>, addition: bool, at: seq<nat>, i: nat)
    requires i < |units|
  {
    i in at <==> IsDue(units[i], only, addition)
  }

  ghost predicate Due(units: seq<Unit>, only: set<string>, addition: bool, due: seq<Unit>) {
    exists at :: DueAt(units, only, addition, due, at)
  }

  ghost predicate InTurn(script: Script, turns: seq<Turn>, sections: seq<Unit>, additions: seq<Unit>) {
    turns == Turns(sections, false) + [Turn(script.Stamping(), false)] + Turns(additions, true) + [Turn(script.Sweep(), false)]
  }

  /** The sections that are due, the stamping, the additions that are due, the final sweep. */
  ghost predicate AreDue(script: Script, only: set<string>, turns: seq<Turn>) {
    exists sections, additions ::
      InTurn(script, turns, sections, additions)
      && Due(script.sections, only, false, sections) && Due(script.additions, only, true, additions)
  }

  lemma {:induction false} AllIncreasing(at: seq<nat>, n: nat)
    requires Increasing(at) && (forall j :: 0 <= j < |at| ==> at[j] < n) && forall i :: 0 <= i < n ==> i in at
    ensures |at| == n && forall j :: 0 <= j < n ==> at[j] == j
  {
    var last := if at == [] then -1 else at[|at| - 1];
    if n > 0 {
      assert n - 1 in at;
      var k :| 0 <= k < |at| && at[k] == n - 1;
      assert k == |at| - 1;
      var front := at[..|at| - 1];
      forall i | 0 <= i < n - 1
        ensures i in front
      {
        assert i in at;
        var j :| 0 <= j < |at| && at[j] == i;
        assert front[j] == i;
      }
      AllIncreasing(front, n - 1);
    }
  }

  /** When nothing is named every section is due, and every addition when no name begins with an
      underscore. */
  lemma AllAreDue(units: seq<Unit>, addition: bool, due: seq<Unit>)
    requires Due(units, {}, addition, due) && (addition ==> forall i :: 0 <= i < |units| ==> !("_" <= units[i].title))
    ensures due == units
  {
    var at :| DueAt(units, {}, addition, due, at);
    forall i | 0 <= i < |units|
      ensures i in at
    {
      assert Listed(units, {}, addition, at, i);
    }
    forall j | 0 <= j < |at|
      ensures at[j] < |units| && due[j] == units[at[j]]
    {
      assert Stands(units, due[j], at[j]);
    }
    AllIncreasing(at, |units|);
  }

  /** A line that reports a failure: it begins with one of two words, or holds one after a colon,
      in any case. */
  ghost predicate Reports(line: string) {
    exists x, m, y :: Parts(line, x, m, y) && ((x == "" && (Lower(m) == "failed" || Lower(m) == "error")) || Lower(m) == ": failed")
  }

  predicate Parts(line: string, x: string, m: string, y: string) { line == x + m + y }

  lemma LowerPart(line: string, i: nat, n: nat)
    requires i + n <= |line|
    ensures Lower(line)[i..i + n] == Lower(line[i..i + n]) && Parts(line, line[..i], line[i..i + n], line[i + n..])
  {
  }

  lemma PartAt(line: string, i: nat, part: string)
    ensures At(Lower(line), i, part) <==> i + |part| <= |line| && Lower(line[i..i + |part|]) == part
  {
    if i + |part| <= |line| { LowerPart(line, i, |part|); }
  }

  lemma ReportsExactly(line: string)
    ensures ReportsFailure(line) <==> Reports(line)
  {
    PartAt(line, 0, "failed");
    PartAt(line, 0, "error");
    if ReportsFailure(line) {
      if At(Lower(line), 0, "failed") {
        LowerPart(line, 0, 6);
      } else if At(Lower(line), 0, "error") {
        LowerPart(line, 0, 5);
      } else {
        var i :| 0 <= i < |Lower(line)| && At(Lower(line), i, ": failed");
        PartAt(line, i, ": failed");
        LowerPart(line, i, 8);
      }
    }
    if Reports(line) { Reported(line); }
  }

  lemma Reported(line: string)
    requires Reports(line)
    ensures ReportsFailure(line)
  {
    var x, m, y :| Parts(line, x, m, y) && ((x == "" && (Lower(m) == "failed" || Lower(m) == "error")) || Lower(m) == ": failed");
    assert line[|x|..|x| + |m|] == m;
    PartAt(line, |x|, Lower(m));
    assert At(Lower(line), |x|, Lower(m));
  }

  /** Whether a unit fails at its turn: it raises, or it is an addition that reports a failure. */
  ghost predicate FailsAt(turn: Turn, state: State) {
    var r := Meaning(turn.unit.body, state, []);
    !r.ok || (turn.addition && exists i :: 0 <= i < |r.notes| && Reports(r.notes[i]))
  }

  /** Each unit is judged on what those before it that did not fail have left. */
  ghost predicate Judged(turns: seq<Turn>, fails: seq<bool>, state: State) {
    |fails| == |turns| && forall i :: 0 <= i < |turns| ==> JudgedAt(turns, fails, state, i)
  }

  ghost predicate JudgedAt(turns: seq<Turn>, fails: seq<bool>, state: State, i: nat)
    requires i < |turns| == |fails|
  {
    fails[i] <==> FailsAt(turns[i], Plainly(Passed(turns[..i], fails[..i]), state))
  }

  /** The units that did not fail. */
  function Passed(turns: seq<Turn>, fails: seq<bool>): seq<Unit>
    requires |turns| == |fails|
  {
    if turns == [] then [] else (if fails[0] then [] else [turns[0].unit]) + Passed(turns[1..], fails[1..])
  }

  /** The labels of those that did. */
  function Labels(turns: seq<Turn>, fails: seq<bool>): seq<string>
    requires |turns| == |fails|
  {
    if turns == [] then [] else
      (if !fails[0] then [] else if turns[0].addition then ["addition " + turns[0].unit.title] else [turns[0].unit.title])
      + Labels(turns[1..], fails[1..])
  }

  // ---- the script's fold takes those turns

  lemma {:induction false} ChooseIsDue(units: seq<Unit>, only: set<string>, addition: bool) returns (at: seq<nat>)
    ensures DueAt(units, only, addition, Choose(units, only, addition), at)
  {
    if units == [] {
      at := [];
    } else {
      var later := ChooseIsDue(units[1..], only, addition);
      var shifted := seq(|later|, j requires 0 <= j < |later| => later[j] + 1);
      var due := Choose(units[1..], only, addition);
      ChosenIsDue(units[0], only, addition);
      if Chosen(units[0], only, addition) {
        at := [0] + shifted;
        KeepFirst(units, only, addition, due, later, shifted);
      } else {
        at := shifted;
        SkipFirst(units, only, addition, due, later, shifted);
        assert [] + due == due;
      }
    }
  }

  lemma ShiftedIn(later: seq<nat>, shifted: seq<nat>, i: nat)
    requires |shifted| == |later| && forall j :: 0 <= j < |later| ==> shifted[j] == later[j] + 1
    ensures i in shifted <==> i > 0 && i - 1 in later
  {
    if i in shifted {
      var j :| 0 <= j < |shifted| && shifted[j] == i;
      assert later[j] == i - 1;
    }
    if i > 0 && i - 1 in later {
      var j :| 0 <= j < |later| && later[j] == i - 1;
      assert shifted[j] == i;
    }
  }

  lemma ChosenIsDue(unit: Unit, only: set<string>, addition: bool)
    ensures Chosen(unit, only, addition) <==> IsDue(unit, only, addition)
  {
  }

  lemma SkipFirst(units: seq<Unit>, only: set<string>, addition: bool, due: seq<Unit>, later: seq<nat>, shifted: seq<nat>)
    requires units != [] && !IsDue(units[0], only, addition) && DueAt(units[1..], only, addition, due, later)
    requires |shifted| == |later| && forall j :: 0 <= j < |later| ==> shifted[j] == later[j] + 1
    ensures DueAt(units, only, addition, due, shifted)
  {
    forall i | 0 <= i < |units|
      ensures Listed(units, only, addition, shifted, i)
    {
      ShiftedIn(later, shifted, i);
      if i > 0 { assert Listed(units[1..], only, addition, later, i - 1); }
    }
    forall j | 0 <= j < |shifted|
      ensures Stands(units, due[j], shifted[j])
    {
      assert Stands(units[1..], due[j], later[j]);
    }
  }

  lemma KeepFirst(units: seq<Unit>, only: set<string>, addition: bool, due: seq<Unit>, later: seq<nat>, shifted: seq<nat>)
    requires units != [] && IsDue(units[0], only, addition) && DueAt(units[1..], only, addition, due, later)
    requires |shifted| == |later| && forall j :: 0 <= j < |later| ==> shifted[j] == later[j] + 1
    ensures DueAt(units, only, addition, [units[0]] + due, [0] + shifted)
  {
    var at, all := [0] + shifted, [units[0]] + due;
    forall i | 0 <= i < |units|
      ensures Listed(units, only, addition, at, i)
    {
      KeptIn(units, only, addition, later, shifted, i);
    }
    forall j | 0 <= j < |at|
      ensures Stands(units, all[j], at[j])
    {
      if j > 0 { assert Stands(units[1..], due[j - 1], later[j - 1]); }
    }
  }

  lemma KeptIn(units: seq<Unit>, only: set<string>, addition: bool, later: seq<nat>, shifted: seq<nat>, i: nat)
    requires i < |units| && IsDue(units[0], only, addition)
    requires |shifted| == |later| && forall j :: 0 <= j < |later| ==> shifted[j] == later[j] + 1
    requires i > 0 ==> Listed(units[1..], only, addition, later, i - 1)
    ensures Listed(units, only, addition, [0] + shifted, i)
  {
    ShiftedIn(later, shifted, i);
    if i == 0 { assert ([0] + shifted)[0] == 0; }
  }

  function AddTurns(sum: Sum, turns: seq<Turn>): Sum
    decreases |turns|
  {
    if turns == [] then sum else AddTurns(Add(sum, turns[0].unit, turns[0].addition), turns[1..])
  }

  lemma {:induction false} AddAllTurns(sum: Sum, units: seq<Unit>, addition: bool)
    ensures AddAll(sum, units, addition) == AddTurns(sum, Turns(units, addition))
    decreases |units|
  {
    if units != [] {
      AddAllTurns(Add(sum, units[0], addition), units[1..], addition);
      assert Turns(units, addition)[1..] == Turns(units[1..], addition);
    }
  }

  lemma {:induction false} AddTurnsJoin(sum: Sum, a: seq<Turn>, b: seq<Turn>)
    ensures AddTurns(sum, a + b) == AddTurns(AddTurns(sum, a), b)
    decreases |a|
  {
    if a == [] {
      assert a + b == b;
    } else {
      assert (a + b)[1..] == a[1..] + b;
      AddTurnsJoin(Add(sum, a[0].unit, a[0].addition), a[1..], b);
    }
  }

  lemma AddOneTurn(sum: Sum, turn: Turn)
    ensures AddTurns(sum, [turn]) == Add(sum, turn.unit, turn.addition)
  {
    assert [turn][1..] == [];
  }

  lemma FailsAsJudged(turn: Turn, state: State)
    ensures FailsAt(turn, state) <==> Fails(turn.unit, state, turn.addition)
  {
    var notes := Meaning(turn.unit.body, state, []).notes;
    forall i | 0 <= i < |notes|
      ensures ReportsFailure(notes[i]) <==> Reports(notes[i])
    {
      ReportsExactly(notes[i]);
    }
  }

  ghost function FailsOf(turns: seq<Turn>, state: State): (fails: seq<bool>)
    ensures |fails| == |turns|
    decreases |turns|
  {
    if turns == [] then [] else
      [FailsAt(turns[0], state)] + FailsOf(turns[1..], Kept(turns[0].unit, state, turns[0].addition))
  }

  lemma {:induction false} FoldIsPassed(sum: Sum, turns: seq<Turn>)
    ensures var fails := FailsOf(turns, sum.state);
            AddTurns(sum, turns) == Sum(Plainly(Passed(turns, fails), sum.state), sum.failures + Labels(turns, fails))
    decreases |turns|
  {
    if turns == [] {
      assert sum.failures + [] == sum.failures;
    } else {
      var turn, fails := turns[0], FailsOf(turns, sum.state);
      var next := Add(sum, turn.unit, turn.addition);
      FailsAsJudged(turn, sum.state);
      FoldIsPassed(next, turns[1..]);
      PassedCons(turns, fails, sum.state);
      LabelsCons(turns, fails, sum.failures);
    }
  }

  lemma PassedCons(turns: seq<Turn>, fails: seq<bool>, state: State)
    requires turns != [] && |turns| == |fails|
    ensures Plainly(Passed(turns, fails), state)
         == Plainly(Passed(turns[1..], fails[1..]), if fails[0] then state else Meaning(turns[0].unit.body, state, []).state)
  {
    var rest := Passed(turns[1..], fails[1..]);
    assert ([turns[0].unit] + rest)[1..] == rest && [] + rest == rest;
  }

  lemma LabelsCons(turns: seq<Turn>, fails: seq<bool>, before: seq<string>)
    requires turns != [] && |turns| == |fails|
    ensures before + Labels(turns, fails)
         == (before + if fails[0] then [Label(turns[0].unit, turns[0].addition)] else []) + Labels(turns[1..], fails[1..])
  {
  }

  lemma {:induction false} FailsAreJudged(turns: seq<Turn>, state: State)
    ensures Judged(turns, FailsOf(turns, state), state)
    decreases |turns|
  {
    if turns != [] {
      var turn, fails := turns[0], FailsOf(turns, state);
      var next := Kept(turn.unit, state, turn.addition);
      FailsAsJudged(turn, state);
      FailsAreJudged(turns[1..], next);
      forall i | 0 <= i < |turns|
        ensures JudgedAt(turns, fails, state, i)
      {
        if i > 0 {
          assert turns[..i][1..] == turns[1..][..i - 1] && fails[..i][1..] == fails[1..][..i - 1];
          PassedCons(turns[..i], fails[..i], state);
          assert JudgedAt(turns[1..], fails[1..], next, i - 1);
        }
      }
    }
  }

  lemma TurnsOf(script: Script, only: set<string>, state: State) returns (turns: seq<Turn>, fails: seq<bool>)
    ensures AreDue(script, only, turns) && Judged(turns, fails, state)
    ensures SumOf(script, only, state) == Sum(Plainly(Passed(turns, fails), state), Labels(turns, fails))
  {
    var sections, additions := Choose(script.sections, only, false), Choose(script.additions, only, true);
    var at := ChooseIsDue(script.sections, only, false);
    var at2 := ChooseIsDue(script.additions, only, true);
    turns := Turns(sections, false) + [Turn(script.Stamping(), false)] + Turns(additions, true) + [Turn(script.Sweep(), false)];
    assert InTurn(script, turns, sections, additions);
    fails := FailsOf(turns, state);
    FailsAreJudged(turns, state);
    FoldIsPassed(Sum(state, []), turns);
    assert [] + Labels(turns, fails) == Labels(turns, fails);
    SumOfTurns(script, only, state, turns);
  }

  lemma SumOfTurns(script: Script, only: set<string>, state: State, turns: seq<Turn>)
    requires InTurn(script, turns, Choose(script.sections, only, false), Choose(script.additions, only, true))
    ensures SumOf(script, only, state) == AddTurns(Sum(state, []), turns)
  {
    var sections, additions := Turns(Choose(script.sections, only, false), false), Turns(Choose(script.additions, only, true), true);
    var stamping, sweep := Turn(script.Stamping(), false), Turn(script.Sweep(), false);
    var sum := Sum(state, []);
    AddTurnsJoin(sum, sections + [stamping] + additions, [sweep]);
    AddTurnsJoin(sum, sections + [stamping], additions);
    AddTurnsJoin(sum, sections, [stamping]);
    AddAllTurns(sum, Choose(script.sections, only, false), false);
    AddOneTurn(AddTurns(sum, sections), stamping);
    AddAllTurns(AddTurns(sum, sections + [stamping]), Choose(script.additions, only, true), true);
    AddOneTurn(AddTurns(sum, sections + [stamping] + additions), sweep);
  }

  lemma {:induction false} NoLabels(turns: seq<Turn>, fails: seq<bool>)
    requires |turns| == |fails|
    ensures Labels(turns, fails) == [] <==> forall i :: 0 <= i < |fails| ==> !fails[i]
  {
    if turns != [] {
      NoLabels(turns[1..], fails[1..]);
      assert forall i :: 0 < i < |fails| ==> fails[i] == fails[1..][i - 1];
    }
  }

  /** The stamping and the final sweep: whatever came of them is committed. */
  method RunAlways(db: Db, unit: Unit, dry: bool, failed: seq<string>) returns (failures: seq<string>)
    requires Nests(unit)
    modifies db
    ensures Sum(db.current, failures) == Add(Sum(old(db.current), failed), unit, false)
    ensures db.committed == if dry then old(db.committed) else db.current
  {
    var bad := RunUnit(db, unit, false, true);
    failures := if bad then failed + [unit.title] else failed;
    if !dry {
      db.Commit();
    }
  }

  // ---- the fold is that of the units that succeeded

  /** The units that did not fail, each run where the ones before it left off. */
  function Succeeded(units: seq<Unit>, state: State, judged: bool): seq<Unit>
    decreases |units|
  {
    if units == [] then [] else
      (if Fails(units[0], state, judged) then [] else [units[0]]) + Succeeded(units[1..], Kept(units[0], state, judged), judged)
  }

  /** Units run one after the other with no savepoint at all. */
  function Plainly(units: seq<Unit>, state: State): State
    decreases |units|
  {
    if units == [] then state else Plainly(units[1..], Meaning(units[0].body, state, []).state)
  }

  lemma {:induction false} FoldIsOfSucceeded(sum: Sum, units: seq<Unit>, judged: bool)
    ensures AddAll(sum, units, judged).state == Plainly(Succeeded(units, sum.state, judged), sum.state)
    ensures |AddAll(sum, units, judged).failures| == |sum.failures| + |units| - |Succeeded(units, sum.state, judged)|
    decreases |units|
  {
    if units != [] {
      FoldIsOfSucceeded(Add(sum, units[0], judged), units[1..], judged);
      var more := Succeeded(units[1..], Kept(units[0], sum.state, judged), judged);
      assert ([units[0]] + more)[1..] == more && [] + more == more;
    }
  }

  // ---- an addition whose steps are caught and reported

  /** What a body does to the database and whether it raises do not depend on earlier notes. */
  lemma {:induction false} NotesApart(body: seq<Stmt>, state: State, notes: seq<string>)
    ensures var r, s := Meaning(body, state, notes), Meaning(body, state, []);
            r.state == s.state && r.ok == s.ok && r.notes == notes + s.notes
    decreases body
  {
    if body != [] {
      match body[0]
      case Do(act) =>
        if act(state).1 {
          NotesApart(body[1..], act(state).0, notes);
        }
      case Say(note) =>
        NotesApart(body[1..], state, notes + [note(state)]);
        NotesApart(body[1..], state, [] + [note(state)]);
        Regroup(notes, [note(state)], Meaning(body[1..], state, []).notes);
      case Step(_, name, inner) =>
        NotesApart(inner, state, notes);
        var a, b := AfterStep(inner, name, state, notes), AfterStep(inner, name, state, []);
        StepNotes(inner, name, state, notes);
        NotesApart(body[1..], a.state, a.notes);
        NotesApart(body[1..], a.state, b.notes);
        Regroup(notes, b.notes, Meaning(body[1..], a.state, []).notes);
    }
  }

  lemma Regroup(a: seq<string>, b: seq<string>, c: seq<string>)
    ensures (a + b) + c == a + (b + c) && (a + b) + c == a + (([] + b) + c)
  {
  }

  function AfterStep(inner: seq<Stmt>, name: string, state: State, notes: seq<string>): Outcome {
    var r := Meaning(inner, state, notes);
    if r.ok then r else Outcome(state, r.notes + [FAILED + name], true)
  }

  lemma StepNotes(inner: seq<Stmt>, name: string, state: State, notes: seq<string>)
    requires var r, s := Meaning(inner, state, notes), Meaning(inner, state, []);
             r.state == s.state && r.ok == s.ok && r.notes == notes + s.notes
    ensures var a, b := AfterStep(inner, name, state, notes), AfterStep(inner, name, state, []);
            a.state == b.state && a.notes == notes + b.notes
  {
  }

  /** Some step of the body raises when its turn comes. */
  ghost predicate SomeStepRaises(body: seq<Stmt>, state: State)
    decreases body
  {
    body != [] && match body[0]
      case Do(act) => act(state).1 && SomeStepRaises(body[1..], act(state).0)
      case Say(_) => SomeStepRaises(body[1..], state)
      case Step(_, name, inner) =>
        !Meaning(inner, state, []).ok || SomeStepRaises(body[1..], AfterStep(inner, name, state, []).state)
  }

  lemma FailureReported(notes: seq<string>, name: string, more: seq<string>)
    ensures AnyFailure((notes + [FAILED + name]) + more)
  {
    var line := FAILED + name;
    assert Lower(line)[0..6] == "failed";
    assert ((notes + [line]) + more)[|notes|] == line && ReportsFailure(line);
  }

  lemma FailureStays(notes: seq<string>, more: seq<string>)
    requires AnyFailure(more)
    ensures AnyFailure(notes + more)
  {
    var i :| 0 <= i < |more| && ReportsFailure(more[i]);
    assert (notes + more)[|notes| + i] == more[i];
  }

  lemma {:induction false} RaisedIsReported(body: seq<Stmt>, state: State)
    requires SomeStepRaises(body, state)
    ensures AnyFailure(Meaning(body, state, []).notes)
    decreases body
  {
    match body[0]
    case Do(act) => RaisedIsReported(body[1..], act(state).0);
    case Say(note) =>
      RaisedIsReported(body[1..], state);
      NotesApart(body[1..], state, [] + [note(state)]);
      FailureStays([] + [note(state)], Meaning(body[1..], state, []).notes);
    case Step(_, name, inner) =>
      var a := AfterStep(inner, name, state, []);
      NotesApart(body[1..], a.state, a.notes);
      if Meaning(inner, state, []).ok {
        RaisedIsReported(body[1..], a.state);
        FailureStays(a.notes, Meaning(body[1..], a.state, []).notes);
      } else {
        FailureReported(Meaning(inner, state, []).notes, name, Meaning(body[1..], a.state, []).notes);
      }
  }

  /** One step that raises, and is caught and reported, undoes the whole addition; in a section
      it undoes only itself. */
  lemma RaisingStepUndoesAddition(unit: Unit, state: State)
    requires SomeStepRaises(unit.body, state)
    ensures Kept(unit, state, true) == state && Fails(unit, state, true)
    ensures Meaning(unit.body, state, []).ok ==> Kept(unit, state, false) == Meaning(unit.body, state, []).state
  {
    RaisedIsReported(unit.body, state);
  }

  /** A unit that changes something, then sets `demo_section` again in a step of its own, and
      later raises. */
  function Reusing(title: string, act: State -> (State, bool), name: string, inner: seq<Stmt>, last: State -> (State, bool)): Unit {
    Unit(title, [Do(act), Step(DEMO, name, inner), Do(last)])
  }

  /** The names matter: such a unit fails, and what it had changed before its step is kept,
      whatever the step did. It leaves the database as it was exactly when there was no
      change. */
  lemma ReusedNameKeeps(title: string, act: State -> (State, bool), name: string, inner: seq<Stmt>, last: State -> (State, bool),
                        state: State, stack: Stack, judged: bool)
    requires act(state).1 && (forall s :: !last(s).1) && WellNamed(inner) && Avoids(inner, DEMO)
    ensures var unit := Reusing(title, act, name, inner, last);
            FailsThere(unit, state, stack, judged) && Left(unit, state, stack, judged) == act(state).0
  {
    var own, changed := stack + [(DEMO, state)], act(state).0;
    var r := Machine(inner, changed, own + [(DEMO, changed)], []);
    MachineMeans(inner, changed, own + [(DEMO, changed)], []);
    OwnIsLatest(own, DEMO, changed, r.stack, inner);
    MachineDo(act, [Step(DEMO, name, inner), Do(last)], state, own, []);
    MachineStep(DEMO, name, inner, [Do(last)], changed, own, []);
    var after := Back(r, DEMO, name);
    MachineRaises(last, [], after.state, after.stack, after.notes);
    assert Reusing(title, act, name, inner, last).body == [Do(act)] + ([Step(DEMO, name, inner)] + ([Do(last)] + []));
    assert [Step(DEMO, name, inner), Do(last)] == [Step(DEMO, name, inner)] + [Do(last)] && [Do(last)] == [Do(last)] + [];
  }

  lemma MachineDo(act: State -> (State, bool), rest: seq<Stmt>, state: State, stack: Stack, notes: seq<string>)
    requires act(state).1
    ensures Machine([Do(act)] + rest, state, stack, notes) == Machine(rest, act(state).0, stack, notes)
  {
    assert ([Do(act)] + rest)[1..] == rest;
  }

  lemma MachineRaises(act: State -> (State, bool), rest: seq<Stmt>, state: State, stack: Stack, notes: seq<string>)
    requires !act(state).1
    ensures Machine([Do(act)] + rest, state, stack, notes) == Run(act(state).0, stack, notes, false)
  {
  }

  lemma MachineStep(savepoint: string, name: string, inner: seq<Stmt>, rest: seq<Stmt>, state: State, stack: Stack, notes: seq<string>)
    ensures var r := Machine(inner, state, stack + [(savepoint, state)], notes);
            && LastNamed(r.stack, savepoint) < |r.stack|
            && var after := Back(r, savepoint, name);
               Machine([Step(savepoint, name, inner)] + rest, state, stack, notes) == Machine(rest, after.state, after.stack, after.notes)
  {
    var r := Machine(inner, state, stack + [(savepoint, state)], notes);
    OwnIsThere(stack, savepoint, state, r.stack);
    assert ([Step(savepoint, name, inner)] + rest)[1..] == rest;
  }
}
