/** deploy/demo_data.py, `main`, with the step runner of deploy/demo_additions/escalation_w3.py:
    nested transactions over a stack of named savepoints. */
module Savepoints {
  import opened Text

  /** What the database holds. */
  type State = map<string, string>

  /** A transaction with savepoints, as PostgreSQL keeps them: a name may be set again, and
      rolling back to it finds the latest. */
  class Db {
    var committed: State
    var current: State
    var stack: Stack

    constructor (state: State)
      ensures committed == current == state && stack == []
    {
      committed, current, stack := state, state, [];
    }

    method Write(state: State)
      modifies this`current
      ensures current == state
    {
      current := state;
    }

    method Savepoint(name: string)
      modifies this`stack
      ensures stack == old(stack) + [(name, current)]
    {
      stack := stack + [(name, current)];
    }

    /** Savepoints set after this one are gone; this one stays. */
    method RollbackTo(name: string)
      requires LastNamed(stack, name) < |stack|
      modifies this`stack, this`current
      ensures var k := LastNamed(old(stack), name);
              stack == old(stack)[..k + 1] && current == old(stack)[k].1
    {
      var k := LastNamed(stack, name);
      current := stack[k].1;
      stack := stack[..k + 1];
    }

    method Commit()
      modifies this
      ensures committed == current == old(current) && stack == []
    {
      committed, stack := current, [];
    }

    method Rollback()
      modifies this
      ensures committed == current == old(committed) && stack == []
    {
      current, stack := committed, [];
    }
  }

  /** The latest savepoint of this name, or the height of the stack. */
  function LastNamed(stack: Stack, name: string): (k: nat)
    ensures k <= |stack|
    ensures k < |stack| ==> stack[k].0 == name
    ensures forall j :: 0 <= j < |stack| && (j > k || k == |stack|) ==> stack[j].0 != name
  {
    if stack == [] then 0
    else
      var n := |stack| - 1;
      if stack[n].0 == name then n
      else
        var k := LastNamed(stack[..n], name);
        if k == n then |stack| else k
  }

  // ---- what a section or an addition does

  /** Work on the database, which may raise after changing it; a note about it; or a step that
      is caught: work within its own savepoint, undone and noted when it raises. */
  datatype Stmt =
    | Do(act: State -> (State, bool))
    | Say(note: State -> string)
    | Step(savepoint: string, name: string, body: seq<Stmt>)

  /** Notes are Python's own and survive a rollback. */
  datatype Outcome = Outcome(state: State, notes: seq<string>, ok: bool)

  const FAILED: string := "failed: "

  type Stack = seq<(string, State)>

  datatype Run = Run(state: State, stack: Stack, notes: seq<string>, ok: bool)

  /** After a step: as it ended, or back to the latest savepoint of its name. */
  function Back(r: Run, savepoint: string, name: string): Run
    requires LastNamed(r.stack, savepoint) < |r.stack|
  {
    var k := LastNamed(r.stack, savepoint);
    if r.ok then r else Run(r.stack[k].1, r.stack[..k + 1], r.notes + [FAILED + name], true)
  }

  /** What a body does, whatever names its steps use: savepoints are set and gone back to by
      name. What was on the stack stays there. */
  function Machine(body: seq<Stmt>, state: State, stack: Stack, notes: seq<string>): (r: Run)
    ensures |stack| <= |r.stack| && r.stack[..|stack|] == stack
    decreases body
  {
    if body == [] then Run(state, stack, notes, true)
    else match body[0]
      case Do(act) =>
        var (next, ok) := act(state);
        if ok then Machine(body[1..], next, stack, notes) else Run(next, stack, notes, false)
      case Say(note) => Machine(body[1..], state, stack, notes + [note(state)])
      case Step(savepoint, name, inner) =>
        var r := Machine(inner, state, stack + [(savepoint, state)], notes);
        assert r.stack[|stack|] == r.stack[..|stack| + 1][|stack|];
        var after := Back(r, savepoint, name);
        assert |stack| < |after.stack| && after.stack[..|stack|] == r.stack[..|stack| + 1][..|stack|];
        Machine(body[1..], after.state, after.stack, after.notes)
  }

  /** What nested transactions mean: a step that raises leaves the state as it was. */
  function Meaning(body: seq<Stmt>, state: State, notes: seq<string>): Outcome
    decreases body
  {
    if body == [] then Outcome(state, notes, true)
    else match body[0]
      case Do(act) =>
        var (next, ok) := act(state);
        if ok then Meaning(body[1..], next, notes) else Outcome(next, notes, false)
      case Say(note) => Meaning(body[1..], state, notes + [note(state)])
      case Step(_, name, inner) =>
        var r := Meaning(inner, state, notes);
        if r.ok then Meaning(body[1..], r.state, r.notes) else Meaning(body[1..], state, r.notes + [FAILED + name])
  }

  /** Each kind of statement by itself: work has its effect and may raise, a note is added, and a
      step either has its effect or leaves the state as it was, with its failure noted. */
  lemma MeaningOne(state: State, notes: seq<string>, act: State -> (State, bool), note: State -> string,
                   savepoint: string, name: string, inner: seq<Stmt>)
    ensures Meaning([Do(act)], state, notes) == Outcome(act(state).0, notes, act(state).1)
    ensures Meaning([Say(note)], state, notes) == Outcome(state, notes + [note(state)], true)
    ensures var r := Meaning(inner, state, notes);
            Meaning([Step(savepoint, name, inner)], state, notes)
            == if r.ok then r else Outcome(state, r.notes + ["failed: " + name], true)
  {
  }

  /** One body after another: the second runs where the first left off, if that did not raise. */
  lemma {:induction false} MeaningJoin(a: seq<Stmt>, b: seq<Stmt>, state: State, notes: seq<string>)
    ensures var r := Meaning(a, state, notes);
            Meaning(a + b, state, notes) == if r.ok then Meaning(b, r.state, r.notes) else r
    decreases |a|
  {
    if a == [] {
      assert a + b == b;
    } else {
      assert (a + b)[0] == a[0] && (a + b)[1..] == a[1..] + b;
      match a[0]
      case Do(act) => MeaningJoin(a[1..], b, act(state).0, notes);
      case Say(note) => MeaningJoin(a[1..], b, state, notes + [note(state)]);
      case Step(_, name, inner) =>
        var r := Meaning(inner, state, notes);
        MeaningJoin(a[1..], b, if r.ok then r.state else state, if r.ok then r.notes else r.notes + [FAILED + name]);
    }
  }

  /** No step sets this savepoint. */
  predicate Avoids(body: seq<Stmt>, name: string)
    decreases body
  {
    forall i :: 0 <= i < |body| && body[i].Step? ==> body[i].savepoint != name && Avoids(body[i].body, name)
  }

  /** No step within a step sets the outer one's savepoint again. */
  predicate WellNamed(body: seq<Stmt>)
    decreases body
  {
    forall i :: 0 <= i < |body| && body[i].Step? ==> Avoids(body[i].body, body[i].savepoint) && WellNamed(body[i].body)
  }

  /** The stack has only grown, by savepoints of the body. */
  ghost predicate GrownBy(before: Stack, after: Stack, body: seq<Stmt>) {
    |before| <= |after| && after[..|before|] == before
    && forall name, j :: |before| <= j < |after| && Avoids(body, name) ==> after[j].0 != name
  }

  lemma GrownSelf(stack: Stack, body: seq<Stmt>)
    ensures GrownBy(stack, stack, body)
  {
  }

  /** The latest savepoint of a step's name is the step's own. */
  lemma OwnIsLatest(before: Stack, name: string, state: State, after: Stack, inner: seq<Stmt>)
    requires Avoids(inner, name) && GrownBy(before + [(name, state)], after, inner)
    ensures LastNamed(after, name) == |before| < |after| && after[|before|].1 == state
    ensures after[..|before| + 1] == before + [(name, state)]
  {
  }

  /** Without names set again within their own step, savepoints are nested transactions. */
  lemma {:induction false} MachineMeans(body: seq<Stmt>, state: State, stack: Stack, notes: seq<string>)
    requires WellNamed(body)
    ensures var r := Machine(body, state, stack, notes);
            Outcome(r.state, r.notes, r.ok) == Meaning(body, state, notes) && GrownBy(stack, r.stack, body)
    decreases body
  {
    if body != [] {
      TailNamed(body);
      match body[0]
      case Do(act) =>
        MachineMeans(body[1..], act(state).0, stack, notes);
      case Say(note) =>
        MachineMeans(body[1..], state, stack, notes + [note(state)]);
      case Step(savepoint, name, inner) =>
        var r := Machine(inner, state, stack + [(savepoint, state)], notes);
        MachineMeans(inner, state, stack + [(savepoint, state)], notes);
        OwnIsLatest(stack, savepoint, state, r.stack, inner);
        var after := Back(r, savepoint, name);
        MachineMeans(body[1..], after.state, after.stack, after.notes);
        GrownByStep(stack, savepoint, state, r.stack, after.stack, body);
        GrownTrans(stack, after.stack, Machine(body[1..], after.state, after.stack, after.notes).stack, body);
    }
  }

  lemma TailNamed(body: seq<Stmt>)
    requires WellNamed(body) && body != []
    ensures WellNamed(body[1..]) && forall name :: Avoids(body, name) ==> Avoids(body[1..], name)
  {
  }

  lemma GrownByStep(stack: Stack, savepoint: string, state: State, after: Stack, back: Stack, body: seq<Stmt>)
    requires body != [] && body[0].Step? && body[0].savepoint == savepoint
    requires GrownBy(stack + [(savepoint, state)], after, body[0].body)
    requires back == after || back == stack + [(savepoint, state)]
    ensures GrownBy(stack, back, body)
  {
  }

  lemma GrownTrans(a: Stack, b: Stack, c: Stack, body: seq<Stmt>)
    requires body != [] && GrownBy(a, b, body) && GrownBy(b, c, body[1..])
    requires forall name :: Avoids(body, name) ==> Avoids(body[1..], name)
    ensures GrownBy(a, c, body)
  {
    assert c[..|a|] == c[..|b|][..|a|];
    assert forall j :: |a| <= j < |b| ==> c[j] == c[..|b|][j] == b[j];
  }

  /** The run on the database. */
  method Exec(db: Db, body: seq<Stmt>, noted: seq<string>) returns (notes: seq<string>, ok: bool)
    modifies db
    ensures Run(db.current, db.stack, notes, ok) == Machine(body, old(db.current), old(db.stack), noted)
    ensures db.committed == old(db.committed)
    decreases body, 0
  {
    notes := noted;
    for i := 0 to |body|
      invariant Machine(body[i..], db.current, db.stack, notes) == Machine(body, old(db.current), old(db.stack), noted)
      invariant db.committed == old(db.committed)
    {
      assert body[i..][0] == body[i] && body[i..][1..] == body[i + 1..];
      match body[i]
      case Do(act) =>
        var (next, fine) := act(db.current);
        db.Write(next);
        if !fine {
          return notes, false;
        }
      case Say(note) =>
        notes := notes + [note(db.current)];
      case Step(savepoint, name, inner) =>
        notes := ExecStep(db, savepoint, name, inner, notes);
    }
    assert body[|body|..] == [];
    ok := true;
  }

  lemma OwnIsThere(stack: Stack, savepoint: string, state: State, after: Stack)
    requires |stack| < |after| && after[..|stack| + 1] == stack + [(savepoint, state)]
    ensures LastNamed(after, savepoint) < |after|
  {
    assert after[|stack|] == after[..|stack| + 1][|stack|];
  }

  /** A savepoint, the work, and back to the latest savepoint of that name when it raises. */
  method ExecStep(db: Db, savepoint: string, name: string, inner: seq<Stmt>, noted: seq<string>) returns (notes: seq<string>)
    modifies db
    ensures var r := Machine(inner, old(db.current), old(db.stack) + [(savepoint, old(db.current))], noted);
            && LastNamed(r.stack, savepoint) < |r.stack|
            && Run(db.current, db.stack, notes, true) == Back(r, savepoint, name)
    ensures db.committed == old(db.committed)
    ensures WellNamed(inner) && Avoids(inner, savepoint) ==>
              var r := Meaning(inner, old(db.current), noted);
              && db.current == (if r.ok then r.state else old(db.current))
              && notes == (if r.ok then r.notes else r.notes + ["failed: " + name])
    decreases inner, 1
  {
    ghost var own := db.stack + [(savepoint, db.current)];
    if WellNamed(inner) && Avoids(inner, savepoint) {
      MachineMeans(inner, db.current, own, noted);
      OwnIsLatest(db.stack, savepoint, db.current, Machine(inner, db.current, own, noted).stack, inner);
    }
    db.Savepoint(savepoint);
    var fine;
    notes, fine := Exec(db, inner, noted);
    OwnIsThere(old(db.stack), savepoint, old(db.current), db.stack);
    if !fine {
      db.RollbackTo(savepoint);
      notes := notes + [FAILED + name];
    }
  }
}
