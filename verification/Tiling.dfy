/** Stretches found from the front: each opens at the first place that can open one after the
    stretch before it has ended. */
module Tiling {

  type Opener = nat -> bool
  type Ender = nat -> nat

  ghost predicate NoneOpens(opens: Opener, from: nat, upto: nat) { forall i: nat :: from <= i < upto ==> !opens(i) }

  ghost predicate Ahead(end: Ender) { forall i: nat :: i < end(i) }

  /** From one place up to another the stretches stand in order without overlap, and every
      place that can open one opens one or lies inside one. */
  ghost predicate Tiles(opens: Opener, end: Ender, from: nat, starts: seq<nat>, upto: nat)
    decreases |starts|
  {
    if starts == [] then from <= upto && NoneOpens(opens, from, upto)
    else
      && from <= starts[0] && opens(starts[0]) && NoneOpens(opens, from, starts[0])
      && Tiles(opens, end, end(starts[0]), starts[1..], upto)
  }

  lemma FirstOpens(opens: Opener, end: Ender, from: nat, starts: seq<nat>, others: seq<nat>, upto: nat)
    requires Tiles(opens, end, from, starts, upto) && Tiles(opens, end, from, others, upto)
    requires starts != [] && others != []
    ensures starts[0] <= others[0]
  {
  }

  lemma {:induction false} StartsBelow(opens: Opener, end: Ender, from: nat, starts: seq<nat>, upto: nat)
    requires Ahead(end) && Tiles(opens, end, from, starts, upto)
    ensures from <= upto && (starts != [] ==> starts[0] < upto)
    decreases |starts|
  {
    if starts != [] {
      StartsBelow(opens, end, end(starts[0]), starts[1..], upto);
    }
  }

  /** That leaves no choice. */
  lemma {:induction false} TilesOneWay(opens: Opener, end: Ender, from: nat, starts: seq<nat>, others: seq<nat>, upto: nat)
    requires Ahead(end) && Tiles(opens, end, from, starts, upto) && Tiles(opens, end, from, others, upto)
    ensures starts == others
    decreases |starts|
  {
    StartsBelow(opens, end, from, starts, upto);
    StartsBelow(opens, end, from, others, upto);
    if starts != [] && others != [] {
      FirstOpens(opens, end, from, starts, others, upto);
      FirstOpens(opens, end, from, others, starts, upto);
      TilesOneWay(opens, end, end(starts[0]), starts[1..], others[1..], upto);
      assert starts == [starts[0]] + starts[1..] && others == [others[0]] + others[1..];
    }
  }

  lemma OneStretchBefore(opens: Opener, end: Ender, from: nat, starts: seq<nat>, upto: nat)
    requires Tiles(opens, end, end(from), starts, upto) && opens(from)
    ensures Tiles(opens, end, from, [from] + starts, upto)
  {
  }
}
