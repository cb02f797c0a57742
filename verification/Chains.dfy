/** scripts/check_contrast.py, `resolve`: references followed to a literal value, however a
    reference is written. */
module Chains {
  import opened Text

  /** A reference: its name, and the fallback if one is given. */
  datatype Var = Var(name: string, fallback: Option<string>)

  type Parser = string -> Option<Var>

  /** A fallback is part of the value that holds it. */
  ghost predicate Shortens(parse: Parser) { forall value :: ShortensAt(parse, value) }

  ghost predicate ShortensAt(parse: Parser, value: string) {
    var v := parse(value);
    v.Some? && v.value.fallback.Some? ==> |v.value.fallback.value| < |value|
  }

  type Tokens = map<string, string>

  datatype Error = Circular(name: string) | Undefined(name: string)

  function Elements(s: seq<string>): set<string> { set x | x in s }

  /** How many names are defined and not seen. */
  function Left(tokens: Tokens, seen: seq<string>): nat { |tokens.Keys - Elements(seen)| }

  /** Ends on every map of tokens: each defined name is followed once, and a fallback is
      shorter than what held it. */
  function ResolveFrom(parse: Parser, tokens: Tokens, value: string, seen: seq<string>): Result<string, Error>
    requires Shortens(parse)
    decreases Left(tokens, seen), |value|
  {
    match parse(value)
    case None => Success(value)
    case Some(v) =>
      assert ShortensAt(parse, value);
      if v.name in seen then Failure(Circular(v.name))
      else if v.name in tokens then
        FewerLeft(tokens, v.name, seen);
        ResolveFrom(parse, tokens, tokens[v.name], seen + [v.name])
      else if v.fallback.Some? then
        SameLeft(tokens, v.name, seen);
        ResolveFrom(parse, tokens, v.fallback.value, seen + [v.name])
      else Failure(Undefined(v.name))
  }

  lemma FewerLeft(tokens: Tokens, name: string, seen: seq<string>)
    requires name in tokens && name !in seen
    ensures Left(tokens, seen + [name]) < Left(tokens, seen)
  {
    var left := tokens.Keys - Elements(seen);
    assert tokens.Keys - Elements(seen + [name]) == left - {name};
    assert name in left;
  }

  lemma SameLeft(tokens: Tokens, name: string, seen: seq<string>)
    requires name !in tokens
    ensures Left(tokens, seen + [name]) == Left(tokens, seen)
  {
    assert tokens.Keys - Elements(seen + [name]) == tokens.Keys - Elements(seen);
  }

  // ---- what the chain of references is

  datatype Step = Literal | To(name: string, next: string) | Stuck(name: string)

  /** One reference followed, with no memory of those before. */
  function StepOf(parse: Parser, tokens: Tokens, value: string): Step {
    match parse(value)
    case None => Literal
    case Some(v) =>
      if v.name in tokens then To(v.name, tokens[v.name])
      else if v.fallback.Some? then To(v.name, v.fallback.value)
      else Stuck(v.name)
  }

  /** The value after n references, if the chain is that long. */
  function Walk(parse: Parser, tokens: Tokens, value: string, n: nat): Option<string>
    decreases n
  {
    if n == 0 then Some(value)
    else match StepOf(parse, tokens, value)
      case To(_, next) => Walk(parse, tokens, next, n - 1)
      case _ => None
  }

  /** The names of the first n references. */
  function Names(parse: Parser, tokens: Tokens, value: string, n: nat): seq<string>
    requires Walk(parse, tokens, value, n).Some?
    decreases n
  {
    if n == 0 then [] else
      var step := StepOf(parse, tokens, value);
      [step.name] + Names(parse, tokens, step.next, n - 1)
  }

  predicate Fresh(names: seq<string>, seen: seq<string>) { NoDups(names) && forall i :: 0 <= i < |names| ==> names[i] !in seen }

  lemma FreshCons(name: string, names: seq<string>, seen: seq<string>)
    ensures Fresh([name] + names, seen) <==> name !in seen && Fresh(names, seen + [name])
  {
    var all := [name] + names;
    assert all[0] == name && forall i :: 0 <= i < |names| ==> all[i + 1] == names[i];
    assert name !in seen && Fresh(names, seen + [name]) ==> forall i :: 0 <= i < |all| ==> all[i] !in seen;
    assert Fresh(all, seen) ==> forall i :: 0 <= i < |names| ==> names[i] == all[i + 1] && names[i] != all[0];
  }

  /** The chain ends in a literal after n references, all of different names. */
  ghost predicate EndsAt(parse: Parser, tokens: Tokens, value: string, seen: seq<string>, n: nat, last: string) {
    Walk(parse, tokens, value, n) == Some(last) && StepOf(parse, tokens, last) == Literal && Fresh(Names(parse, tokens, value, n), seen)
  }

  lemma {:induction false} WalkResolves(parse: Parser, tokens: Tokens, value: string, seen: seq<string>, n: nat, last: string)
    requires Shortens(parse) && EndsAt(parse, tokens, value, seen, n, last)
    ensures ResolveFrom(parse, tokens, value, seen) == Success(last)
    decreases n
  {
    if n > 0 {
      var step := StepOf(parse, tokens, value);
      FreshCons(step.name, Names(parse, tokens, step.next, n - 1), seen);
      WalkResolves(parse, tokens, step.next, seen + [step.name], n - 1, last);
    }
  }

  /** What one step of the recursion does to the measure and to the result. */
  lemma ResolveStep(parse: Parser, tokens: Tokens, value: string, seen: seq<string>)
    requires Shortens(parse) && StepOf(parse, tokens, value).To? && StepOf(parse, tokens, value).name !in seen
    ensures var step := StepOf(parse, tokens, value);
            && ResolveFrom(parse, tokens, value, seen) == ResolveFrom(parse, tokens, step.next, seen + [step.name])
            && (Left(tokens, seen + [step.name]) < Left(tokens, seen)
                || (Left(tokens, seen + [step.name]) == Left(tokens, seen) && |step.next| < |value|))
  {
    var name := StepOf(parse, tokens, value).name;
    assert ShortensAt(parse, value);
    if name in tokens { FewerLeft(tokens, name, seen); } else { SameLeft(tokens, name, seen); }
  }

  /** The chain ends in this literal, its names all different and none of them seen. */
  ghost predicate Ends(parse: Parser, tokens: Tokens, value: string, seen: seq<string>, last: string) {
    exists n :: EndsAt(parse, tokens, value, seen, n, last)
  }

  lemma EndsHere(parse: Parser, tokens: Tokens, value: string, seen: seq<string>)
    requires parse(value) == None
    ensures Ends(parse, tokens, value, seen, value)
  {
    assert EndsAt(parse, tokens, value, seen, 0, value);
  }

  lemma EndsLater(parse: Parser, tokens: Tokens, value: string, seen: seq<string>, last: string)
    requires StepOf(parse, tokens, value).To? && StepOf(parse, tokens, value).name !in seen
    requires var step := StepOf(parse, tokens, value); Ends(parse, tokens, step.next, seen + [step.name], last)
    ensures Ends(parse, tokens, value, seen, last)
  {
    var step := StepOf(parse, tokens, value);
    var n: nat :| EndsAt(parse, tokens, step.next, seen + [step.name], n, last);
    FreshCons(step.name, Names(parse, tokens, step.next, n), seen);
    assert EndsAt(parse, tokens, value, seen, n + 1, last);
  }

  lemma {:induction false} ResolveWalks(parse: Parser, tokens: Tokens, value: string, seen: seq<string>, last: string)
    requires Shortens(parse) && ResolveFrom(parse, tokens, value, seen) == Success(last)
    ensures Ends(parse, tokens, value, seen, last)
    decreases Left(tokens, seen), |value|
  {
    if parse(value) == None {
      EndsHere(parse, tokens, value, seen);
    } else {
      var step := StepOf(parse, tokens, value);
      ResolveStep(parse, tokens, value, seen);
      ResolveWalks(parse, tokens, step.next, seen + [step.name], last);
      EndsLater(parse, tokens, value, seen, last);
    }
  }

  /** It returns a value exactly when the chain of references ends there without meeting a name
      twice. */
  lemma SuccessExactly(parse: Parser, tokens: Tokens, value: string, last: string)
    requires Shortens(parse)
    ensures ResolveFrom(parse, tokens, value, []) == Success(last) <==> Ends(parse, tokens, value, [], last)
    ensures ResolveFrom(parse, tokens, value, []) == Success(last) ==> parse(last) == None
  {
    if ResolveFrom(parse, tokens, value, []) == Success(last) {
      ResolveWalks(parse, tokens, value, [], last);
    }
    if n :| EndsAt(parse, tokens, value, [], n, last) {
      WalkResolves(parse, tokens, value, [], n, last);
    }
  }

  // ---- what is reported as circular

  /** The chain goes on for ever. */
  ghost predicate Endless(parse: Parser, tokens: Tokens, value: string) {
    forall n: nat :: Walk(parse, tokens, value, n).Some?
  }

  /** From this value the chain comes, after at least one reference, to one of this name. */
  ghost predicate Meets(parse: Parser, tokens: Tokens, value: string, d: nat, name: string) {
    var w := Walk(parse, tokens, value, d);
    w.Some? && NamedBy(parse, w.value, name)
  }

  ghost predicate NamedBy(parse: Parser, value: string, name: string) {
    parse(value).Some? && parse(value).value.name == name
  }

  lemma {:induction false} WalkOn(parse: Parser, tokens: Tokens, value: string, d: nat, n: nat)
    requires Walk(parse, tokens, value, d).Some?
    ensures Walk(parse, tokens, value, d + n) == Walk(parse, tokens, Walk(parse, tokens, value, d).value, n)
    decreases d
  {
    if d > 0 {
      WalkOn(parse, tokens, StepOf(parse, tokens, value).next, d - 1, n);
    }
  }

  /** A defined name met again from its own value: the chain never ends. */
  lemma {:induction false} LoopWalks(parse: Parser, tokens: Tokens, name: string, d: nat, n: nat)
    requires name in tokens && Meets(parse, tokens, tokens[name], d, name)
    ensures Walk(parse, tokens, tokens[name], n).Some?
    decreases n
  {
    if n > d {
      LoopWalks(parse, tokens, name, d, n - d - 1);
      var again := Walk(parse, tokens, tokens[name], d).value;
      WalkOn(parse, tokens, tokens[name], d, n - d);
      assert StepOf(parse, tokens, again) == To(name, tokens[name]);
    } else {
      WalkShorter(parse, tokens, tokens[name], n, d);
    }
  }

  lemma {:induction false} WalkShorter(parse: Parser, tokens: Tokens, value: string, n: nat, d: nat)
    requires n <= d && Walk(parse, tokens, value, d).Some?
    ensures Walk(parse, tokens, value, n).Some?
    decreases n
  {
    if n > 0 {
      WalkShorter(parse, tokens, StepOf(parse, tokens, value).next, n - 1, d - 1);
    }
  }

  lemma EndlessBefore(parse: Parser, tokens: Tokens, value: string)
    requires StepOf(parse, tokens, value).To?
    ensures Endless(parse, tokens, value) <==> Endless(parse, tokens, StepOf(parse, tokens, value).next)
  {
    var next := StepOf(parse, tokens, value).next;
    if Endless(parse, tokens, value) {
      forall n: nat
        ensures Walk(parse, tokens, next, n).Some?
      {
        assert Walk(parse, tokens, value, n + 1).Some?;
      }
    }
    if Endless(parse, tokens, next) {
      forall n: nat
        ensures Walk(parse, tokens, value, n).Some?
      {
        assert n > 0 ==> Walk(parse, tokens, next, n - 1).Some?;
      }
    }
  }

  /** The value is what the chain from each seen and defined name has come to. */
  ghost predicate Behind(parse: Parser, tokens: Tokens, seen: seq<string>, value: string) {
    forall s :: s in seen && s in tokens ==> CameFrom(parse, tokens, s, value)
  }

  ghost predicate CameFrom(parse: Parser, tokens: Tokens, name: string, value: string)
    requires name in tokens
  {
    exists d :: Walk(parse, tokens, tokens[name], d) == Some(value)
  }

  lemma CameOn(parse: Parser, tokens: Tokens, name: string, value: string)
    requires name in tokens && CameFrom(parse, tokens, name, value) && StepOf(parse, tokens, value).To?
    ensures CameFrom(parse, tokens, name, StepOf(parse, tokens, value).next)
  {
    var d: nat :| Walk(parse, tokens, tokens[name], d) == Some(value);
    WalkOn(parse, tokens, tokens[name], d, 1);
    assert Walk(parse, tokens, StepOf(parse, tokens, value).next, 0) == Some(StepOf(parse, tokens, value).next);
    assert Walk(parse, tokens, tokens[name], d + 1) == Some(StepOf(parse, tokens, value).next);
  }

  lemma BehindNext(parse: Parser, tokens: Tokens, seen: seq<string>, value: string)
    requires Behind(parse, tokens, seen, value) && StepOf(parse, tokens, value).To?
    ensures var step := StepOf(parse, tokens, value); Behind(parse, tokens, seen + [step.name], step.next)
  {
    var step := StepOf(parse, tokens, value);
    forall s | s in seen + [step.name] && s in tokens
      ensures CameFrom(parse, tokens, s, step.next)
    {
      if s == step.name {
        assert Walk(parse, tokens, tokens[s], 0) == Some(step.next);
      } else {
        CameOn(parse, tokens, s, value);
      }
    }
  }

  lemma LoopIsEndless(parse: Parser, tokens: Tokens, value: string, name: string)
    requires name in tokens && NamedBy(parse, value, name) && CameFrom(parse, tokens, name, value)
    ensures Endless(parse, tokens, value)
  {
    var d: nat :| Walk(parse, tokens, tokens[name], d) == Some(value);
    assert Meets(parse, tokens, tokens[name], d, name);
    forall n: nat
      ensures Walk(parse, tokens, tokens[name], n).Some?
    {
      LoopWalks(parse, tokens, name, d, n);
    }
    EndlessBefore(parse, tokens, value);
  }

  lemma {:induction false} CircularFrom(parse: Parser, tokens: Tokens, value: string, seen: seq<string>, name: string)
    requires Shortens(parse) && ResolveFrom(parse, tokens, value, seen) == Failure(Circular(name))
    requires name in tokens && Behind(parse, tokens, seen, value)
    ensures Endless(parse, tokens, value)
    decreases Left(tokens, seen), |value|
  {
    var v := parse(value).value;
    if v.name in seen {
      LoopIsEndless(parse, tokens, value, name);
    } else {
      var step := StepOf(parse, tokens, value);
      ResolveStep(parse, tokens, value, seen);
      BehindNext(parse, tokens, seen, value);
      CircularFrom(parse, tokens, step.next, seen + [step.name], name);
      EndlessBefore(parse, tokens, value);
    }
  }

  lemma {:induction false} EndlessFrom(parse: Parser, tokens: Tokens, value: string, seen: seq<string>)
    requires Shortens(parse) && Endless(parse, tokens, value)
    ensures var r := ResolveFrom(parse, tokens, value, seen); r.Failure? && r.error.Circular?
    decreases Left(tokens, seen), |value|
  {
    assert Walk(parse, tokens, value, 1).Some?;
    var step := StepOf(parse, tokens, value);
    if step.name !in seen {
      ResolveStep(parse, tokens, value, seen);
      EndlessBefore(parse, tokens, value);
      EndlessFrom(parse, tokens, step.next, seen + [step.name]);
    }
  }

  // ---- what the report says, and when it is right

  /** After n references of names all different and unseen the chain comes to one whose name
      was met or seen before. */
  ghost predicate RepeatsAt(parse: Parser, tokens: Tokens, value: string, seen: seq<string>, n: nat, name: string) {
    && Meets(parse, tokens, value, n, name)
    && Fresh(Names(parse, tokens, value, n), seen)
    && (name in seen || name in Names(parse, tokens, value, n))
  }

  ghost predicate Repeats(parse: Parser, tokens: Tokens, value: string, seen: seq<string>, name: string) {
    exists n :: RepeatsAt(parse, tokens, value, seen, n, name)
  }

  lemma RepeatsLater(parse: Parser, tokens: Tokens, value: string, seen: seq<string>, n: nat, name: string)
    requires StepOf(parse, tokens, value).To? && StepOf(parse, tokens, value).name !in seen
    ensures var step := StepOf(parse, tokens, value);
            RepeatsAt(parse, tokens, value, seen, n + 1, name) <==> RepeatsAt(parse, tokens, step.next, seen + [step.name], n, name)
  {
    var step := StepOf(parse, tokens, value);
    if Walk(parse, tokens, step.next, n).Some? {
      var names := Names(parse, tokens, step.next, n);
      FreshCons(step.name, names, seen);
      assert Names(parse, tokens, value, n + 1) == [step.name] + names;
      assert name in [step.name] + names <==> name == step.name || name in names;
    }
  }

  lemma RepeatsTail(parse: Parser, tokens: Tokens, value: string, seen: seq<string>, n: nat, name: string)
    requires Shortens(parse) && RepeatsAt(parse, tokens, value, seen, n, name) && n > 0
    ensures var step := StepOf(parse, tokens, value);
            && step.To? && RepeatsAt(parse, tokens, step.next, seen + [step.name], n - 1, name)
            && ResolveFrom(parse, tokens, value, seen) == ResolveFrom(parse, tokens, step.next, seen + [step.name])
  {
    var step := StepOf(parse, tokens, value);
    FreshCons(step.name, Names(parse, tokens, step.next, n - 1), seen);
    RepeatsLater(parse, tokens, value, seen, n - 1, name);
    ResolveStep(parse, tokens, value, seen);
  }

  lemma RepeatsHere(parse: Parser, tokens: Tokens, value: string, seen: seq<string>, name: string)
    requires Shortens(parse) && RepeatsAt(parse, tokens, value, seen, 0, name)
    ensures ResolveFrom(parse, tokens, value, seen) == Failure(Circular(name))
  {
  }

  lemma {:induction false} RepeatResolves(parse: Parser, tokens: Tokens, value: string, seen: seq<string>, n: nat, name: string)
    requires Shortens(parse) && RepeatsAt(parse, tokens, value, seen, n, name)
    ensures ResolveFrom(parse, tokens, value, seen) == Failure(Circular(name))
    decreases n
  {
    if n == 0 {
      RepeatsHere(parse, tokens, value, seen, name);
    } else {
      RepeatsTail(parse, tokens, value, seen, n, name);
      var step := StepOf(parse, tokens, value);
      RepeatResolves(parse, tokens, step.next, seen + [step.name], n - 1, name);
    }
  }

  lemma {:induction false} ResolveRepeats(parse: Parser, tokens: Tokens, value: string, seen: seq<string>, name: string)
    requires Shortens(parse) && ResolveFrom(parse, tokens, value, seen) == Failure(Circular(name))
    ensures Repeats(parse, tokens, value, seen, name)
    decreases Left(tokens, seen), |value|
  {
    var v := parse(value).value;
    if v.name in seen {
      assert Walk(parse, tokens, value, 0) == Some(value);
      assert RepeatsAt(parse, tokens, value, seen, 0, name);
    } else {
      var step := StepOf(parse, tokens, value);
      ResolveStep(parse, tokens, value, seen);
      ResolveRepeats(parse, tokens, step.next, seen + [step.name], name);
      var n: nat :| RepeatsAt(parse, tokens, step.next, seen + [step.name], n, name);
      RepeatsLater(parse, tokens, value, seen, n, name);
    }
  }

  /** The chain comes twice to a reference of this name. */
  ghost predicate MetTwice(parse: Parser, tokens: Tokens, value: string, name: string) {
    exists i, j :: MetAt(parse, tokens, value, i, j, name)
  }

  ghost predicate MetAt(parse: Parser, tokens: Tokens, value: string, i: nat, j: nat, name: string) {
    i < j && Meets(parse, tokens, value, i, name) && Meets(parse, tokens, value, j, name)
  }

  lemma MeetsNext(parse: Parser, tokens: Tokens, value: string, n: nat, name: string)
    requires StepOf(parse, tokens, value).To?
    ensures Meets(parse, tokens, value, n + 1, name) <==> Meets(parse, tokens, StepOf(parse, tokens, value).next, n, name)
  {
  }

  lemma {:induction false} EndlessFurther(parse: Parser, tokens: Tokens, value: string, i: nat)
    requires Walk(parse, tokens, value, i).Some? && Endless(parse, tokens, Walk(parse, tokens, value, i).value)
    ensures Endless(parse, tokens, value)
    decreases i
  {
    if i > 0 {
      EndlessFurther(parse, tokens, StepOf(parse, tokens, value).next, i - 1);
      EndlessBefore(parse, tokens, value);
    }
  }

  /** A defined name met twice is met again and again. */
  lemma TwiceIsEndless(parse: Parser, tokens: Tokens, value: string, i: nat, j: nat, name: string)
    requires name in tokens && MetAt(parse, tokens, value, i, j, name)
    ensures Endless(parse, tokens, value)
  {
    var first := Walk(parse, tokens, value, i).value;
    WalkOn(parse, tokens, value, i, j - i);
    assert StepOf(parse, tokens, first) == To(name, tokens[name]);
    MeetsNext(parse, tokens, first, j - i - 1, name);
    forall n: nat
      ensures Walk(parse, tokens, tokens[name], n).Some?
    {
      LoopWalks(parse, tokens, name, j - i - 1, n);
    }
    EndlessBefore(parse, tokens, first);
    EndlessFurther(parse, tokens, value, i);
  }

  /** A defined name that the chain meets, and that was seen or met before. */
  ghost predicate Again(parse: Parser, tokens: Tokens, value: string, seen: seq<string>, n: nat, name: string) {
    && name in tokens && Meets(parse, tokens, value, n, name)
    && (name in seen || exists m :: MetAt(parse, tokens, value, m, n, name))
  }

  lemma AgainLater(parse: Parser, tokens: Tokens, value: string, seen: seq<string>, n: nat, name: string)
    requires StepOf(parse, tokens, value).To?
    requires var step := StepOf(parse, tokens, value);
             Again(parse, tokens, step.next, if step.name in tokens then seen + [step.name] else seen, n, name)
    ensures Again(parse, tokens, value, seen, n + 1, name)
  {
    var step := StepOf(parse, tokens, value);
    MeetsNext(parse, tokens, value, n, name);
    if m: nat :| MetAt(parse, tokens, step.next, m, n, name) {
      MeetsNext(parse, tokens, value, m, name);
      assert MetAt(parse, tokens, value, m + 1, n + 1, name);
    } else if name !in seen {
      assert Meets(parse, tokens, value, 0, name);
      assert MetAt(parse, tokens, value, 0, n + 1, name);
    }
  }

  /** There are only so many defined names, and between two of them the values get shorter. */
  lemma {:induction false} EndlessMeetsAgain(parse: Parser, tokens: Tokens, value: string, seen: seq<string>) returns (n: nat, name: string)
    requires Shortens(parse) && Endless(parse, tokens, value)
    ensures Again(parse, tokens, value, seen, n, name)
    decreases Left(tokens, seen), |value|
  {
    assert Walk(parse, tokens, value, 1).Some?;
    var step := StepOf(parse, tokens, value);
    EndlessBefore(parse, tokens, value);
    if step.name in tokens && step.name in seen {
      assert Walk(parse, tokens, value, 0) == Some(value);
      return 0, step.name;
    }
    if step.name in tokens {
      FewerLeft(tokens, step.name, seen);
      n, name := EndlessMeetsAgain(parse, tokens, step.next, seen + [step.name]);
    } else {
      assert ShortensAt(parse, value);
      n, name := EndlessMeetsAgain(parse, tokens, step.next, seen);
    }
    AgainLater(parse, tokens, value, seen, n, name);
    n := n + 1;
  }

  /** The chain goes on for ever exactly when it meets a defined name twice. */
  lemma EndlessExactly(parse: Parser, tokens: Tokens, value: string)
    requires Shortens(parse)
    ensures Endless(parse, tokens, value) <==> exists name :: name in tokens && MetTwice(parse, tokens, value, name)
  {
    if Endless(parse, tokens, value) {
      var n, name := EndlessMeetsAgain(parse, tokens, value, []);
      var m: nat :| MetAt(parse, tokens, value, m, n, name);
      assert MetTwice(parse, tokens, value, name);
    }
    if name :| name in tokens && MetTwice(parse, tokens, value, name) {
      var i: nat, j: nat :| MetAt(parse, tokens, value, i, j, name);
      TwiceIsEndless(parse, tokens, value, i, j, name);
    }
  }

  /** A report names the first name that is met twice. It is made whenever the chain goes on for
      ever, and is right exactly when some defined name is met twice; so always when the name
      reported is defined. */
  lemma CircularMeans(parse: Parser, tokens: Tokens, value: string)
    requires Shortens(parse)
    ensures forall name :: ResolveFrom(parse, tokens, value, []) == Failure(Circular(name)) <==> Repeats(parse, tokens, value, [], name)
    ensures Endless(parse, tokens, value) <==> exists name :: name in tokens && MetTwice(parse, tokens, value, name)
    ensures Endless(parse, tokens, value) ==> exists name :: ResolveFrom(parse, tokens, value, []) == Failure(Circular(name))
    ensures forall name :: name in tokens && Repeats(parse, tokens, value, [], name) ==> Endless(parse, tokens, value)
  {
    forall name
      ensures ResolveFrom(parse, tokens, value, []) == Failure(Circular(name)) <==> Repeats(parse, tokens, value, [], name)
    {
      RepeatsExactly(parse, tokens, value, name);
    }
    EndlessExactly(parse, tokens, value);
    if Endless(parse, tokens, value) { EndlessFrom(parse, tokens, value, []); }
    forall name | name in tokens && Repeats(parse, tokens, value, [], name)
      ensures Endless(parse, tokens, value)
    {
      CircularFrom(parse, tokens, value, [], name);
    }
  }

  lemma RepeatsExactly(parse: Parser, tokens: Tokens, value: string, name: string)
    requires Shortens(parse)
    ensures ResolveFrom(parse, tokens, value, []) == Failure(Circular(name)) <==> Repeats(parse, tokens, value, [], name)
  {
    if ResolveFrom(parse, tokens, value, []) == Failure(Circular(name)) {
      ResolveRepeats(parse, tokens, value, [], name);
    }
    if n :| RepeatsAt(parse, tokens, value, [], n, name) {
      RepeatResolves(parse, tokens, value, [], n, name);
    }
  }

  /** An undefined name that is the fallback of itself is reported although the chain ends. */
  lemma FalseCircular(parse: Parser, tokens: Tokens, outer: string, inner: string, name: string, last: string)
    requires Shortens(parse) && name !in tokens && parse(last) == None
    requires parse(outer) == Some(Var(name, Some(inner))) && parse(inner) == Some(Var(name, Some(last)))
    ensures ResolveFrom(parse, tokens, outer, []) == Failure(Circular(name))
    ensures Walk(parse, tokens, outer, 2) == Some(last) && StepOf(parse, tokens, last) == Literal
  {
  }

  // ---- the whole chain, written out

  /** A defined name leads to its token, whatever the fallback; an undefined one to the
      fallback. */
  predicate Link(parse: Parser, tokens: Tokens, from: string, name: string, to: string) {
    && parse(from).Some? && parse(from).value.name == name
    && if name in tokens then to == tokens[name] else parse(from).value.fallback == Some(to)
  }

  /** Each value leads to the next by the reference of this name. */
  predicate Chain(parse: Parser, tokens: Tokens, values: seq<string>, names: seq<string>) {
    |values| == |names| + 1 && forall i :: 0 <= i < |names| ==> Link(parse, tokens, values[i], names[i], values[i + 1])
  }

  /** What the last value of a chain comes to, after references of these names. */
  predicate Outcome(parse: Parser, tokens: Tokens, met: seq<string>, last: string, r: Result<string, Error>) {
    match parse(last)
    case None => r == Success(last)
    case Some(v) =>
      if v.name in met then r == Failure(Circular(v.name))
      else v.name !in tokens && v.fallback == None && r == Failure(Undefined(v.name))
  }

  lemma ChainCons(parse: Parser, tokens: Tokens, value: string, name: string, values: seq<string>, names: seq<string>)
    requires Chain(parse, tokens, values, names) && Link(parse, tokens, value, name, values[0])
    ensures Chain(parse, tokens, [value] + values, [name] + names) && ([value] + values)[|names| + 1] == values[|names|]
  {
    forall i | 0 <= i < |names| + 1
      ensures Link(parse, tokens, ([value] + values)[i], ([name] + names)[i], ([value] + values)[i + 1])
    {
      assert i > 0 ==> Link(parse, tokens, values[i - 1], names[i - 1], values[i]);
    }
  }

  lemma ChainEnds(parse: Parser, tokens: Tokens, value: string, seen: seq<string>)
    requires Shortens(parse)
    requires StepOf(parse, tokens, value).To? ==> StepOf(parse, tokens, value).name in seen
    ensures Outcome(parse, tokens, seen + [], value, ResolveFrom(parse, tokens, value, seen))
  {
    assert seen + [] == seen;
  }

  lemma LinkOf(parse: Parser, tokens: Tokens, value: string)
    requires StepOf(parse, tokens, value).To?
    ensures Link(parse, tokens, value, StepOf(parse, tokens, value).name, StepOf(parse, tokens, value).next)
  {
  }

  lemma Moved(seen: seq<string>, name: string, names: seq<string>)
    ensures seen + ([name] + names) == (seen + [name]) + names
  {
  }

  lemma {:induction false} ChainOf(parse: Parser, tokens: Tokens, value: string, seen: seq<string>) returns (values: seq<string>, names: seq<string>)
    requires Shortens(parse)
    ensures Chain(parse, tokens, values, names) && values[0] == value && Fresh(names, seen)
    ensures Outcome(parse, tokens, seen + names, values[|names|], ResolveFrom(parse, tokens, value, seen))
    decreases Left(tokens, seen), |value|
  {
    var step := StepOf(parse, tokens, value);
    if step.To? && step.name !in seen {
      ResolveStep(parse, tokens, value, seen);
      var vs, ns := ChainOf(parse, tokens, step.next, seen + [step.name]);
      LinkOf(parse, tokens, value);
      ChainCons(parse, tokens, value, step.name, vs, ns);
      FreshCons(step.name, ns, seen);
      Moved(seen, step.name, ns);
      values, names := [value] + vs, [step.name] + ns;
    } else {
      values, names := [value], [];
      ChainEnds(parse, tokens, value, seen);
    }
  }

  lemma ChainTail(parse: Parser, tokens: Tokens, values: seq<string>, names: seq<string>)
    requires Chain(parse, tokens, values, names) && names != []
    ensures Chain(parse, tokens, values[1..], names[1..]) && StepOf(parse, tokens, values[0]) == To(names[0], values[1])
  {
    assert Link(parse, tokens, values[0], names[0], values[1]);
    forall i | 0 <= i < |names| - 1
      ensures Link(parse, tokens, values[1..][i], names[1..][i], values[1..][i + 1])
    {
      assert Link(parse, tokens, values[i + 1], names[i + 1], values[i + 2]);
    }
  }

  lemma {:induction false} ChainResolves(parse: Parser, tokens: Tokens, values: seq<string>, names: seq<string>, seen: seq<string>, r: Result<string, Error>)
    requires Shortens(parse) && Chain(parse, tokens, values, names) && Fresh(names, seen)
    requires Outcome(parse, tokens, seen + names, values[|names|], r)
    ensures ResolveFrom(parse, tokens, values[0], seen) == r
    decreases |names|
  {
    if names == [] {
      assert seen + names == seen;
    } else {
      ChainTail(parse, tokens, values, names);
      assert names == [names[0]] + names[1..];
      FreshCons(names[0], names[1..], seen);
      ResolveStep(parse, tokens, values[0], seen);
      assert seen + names == (seen + [names[0]]) + names[1..];
      ChainResolves(parse, tokens, values[1..], names[1..], seen + [names[0]], r);
    }
  }

  /** A chain from this value, no name twice, that comes to this. */
  ghost predicate Leads(parse: Parser, tokens: Tokens, value: string, values: seq<string>, names: seq<string>, r: Result<string, Error>) {
    && Chain(parse, tokens, values, names) && values[0] == value && NoDups(names)
    && Outcome(parse, tokens, names, values[|names|], r)
  }

  /** Every result, a value as well as both reports, is that of the chain. */
  lemma ChainExactly(parse: Parser, tokens: Tokens, value: string, r: Result<string, Error>)
    requires Shortens(parse)
    ensures ResolveFrom(parse, tokens, value, []) == r <==> exists values, names :: Leads(parse, tokens, value, values, names, r)
  {
    var vs, ns := ChainOf(parse, tokens, value, []);
    assert [] + ns == ns;
    assert Leads(parse, tokens, value, vs, ns, ResolveFrom(parse, tokens, value, []));
    if values, names :| Leads(parse, tokens, value, values, names, r) {
      assert [] + names == names;
      ChainResolves(parse, tokens, values, names, [], r);
    }
  }
}
