/** deploy/make_bundle.py, `collect_dependency_wheels`: which requirements publish a wheel for
    the target, found by asking pip until it has no complaint. */
module CrossBuild {
  import opened Text
  import opened Packages

  /** pip's answer: all fetched; or no distribution for one of them; or something else. */
  datatype Reply = Fetched | NoMatch(token: string) | Broken

  /** What pip says to the n-th request, for these lines: anything at all. */
  type Pip = (nat, seq<string>) -> Reply

  datatype Error = PipFailed | NotInSet(token: string) | Unsettled

  datatype Settled = Settled(pending: seq<string>, buildHere: seq<string>)

  /** The first line with this key, or the length. */
  function FirstWith(lines: seq<string>, key: string): (k: nat)
    ensures k <= |lines|
    ensures k < |lines| ==> Key(lines[k]) == key
    ensures forall j :: 0 <= j < k ==> Key(lines[j]) != key
  {
    if lines == [] || Key(lines[0]) == key then 0 else 1 + FirstWith(lines[1..], key)
  }

  function Without(lines: seq<string>, k: nat): seq<string>
    requires k < |lines|
  {
    lines[..k] + lines[k + 1..]
  }

  lemma WithoutBag(lines: seq<string>, k: nat)
    requires k < |lines|
    ensures multiset(Without(lines, k)) + multiset{lines[k]} == multiset(lines)
  {
    assert lines == lines[..k] + [lines[k]] + lines[k + 1..];
  }

  /** The loop from its n-th request on. */
  function SettledFrom(pip: Pip, n: nat, s: Settled): Result<Settled, Error>
    decreases |s.pending|
  {
    match pip(n, s.pending)
    case Fetched => Success(s)
    case Broken => Failure(PipFailed)
    case NoMatch(token) =>
      var k := FirstWith(s.pending, Key(token));
      if k == |s.pending| then Failure(NotInSet(token)) else SettledFrom(pip, n + 1, Move(s, k))
  }

  function Move(s: Settled, k: nat): Settled
    requires k < |s.pending|
  {
    Settled(Without(s.pending, k), s.buildHere + [s.pending[k]])
  }

  /** Asks at most once more than there are requirements; the branch after the last request is
      never taken, whatever pip answers. */
  method Settle(requirements: seq<string>, pip: Pip) returns (r: Result<Settled, Error>, asked: nat)
    ensures 1 <= asked <= |requirements| + 1
    ensures r == SettledFrom(pip, 0, Settled(requirements, [])) && r != Failure(Unsettled)
    ensures r.Success? ==> pip(asked - 1, r.value.pending) == Fetched && |r.value.buildHere| == asked - 1
  {
    var pending, buildHere := requirements, [];
    r, asked := Failure(Unsettled), |requirements| + 1;
    for n := 0 to |requirements| + 1
      invariant |pending| == |requirements| - n && |buildHere| == n
      invariant SettledFrom(pip, n, Settled(pending, buildHere)) == SettledFrom(pip, 0, Settled(requirements, []))
    {
      var reply := pip(n, pending);
      if reply.Fetched? {
        return Success(Settled(pending, buildHere)), n + 1;
      }
      if reply.Broken? {
        return Failure(PipFailed), n + 1;
      }
      // the first line equal to the first match is that match: equal lines have the same key
      var k := FirstWith(pending, Key(reply.token));
      if k == |pending| {
        return Failure(NotInSet(reply.token)), n + 1;
      }
      pending, buildHere := Without(pending, k), buildHere + [pending[k]];
    }
  }

  // ---- whatever pip answers

  /** The first line of this name has gone from the one list to the other. */
  predicate MovedOver(s: Settled, t: Settled, k: nat, key: string) {
    && k < |s.pending| && Key(s.pending[k]) == key && (forall j :: 0 <= j < k ==> Key(s.pending[j]) != key)
    && t.pending == s.pending[..k] + s.pending[k + 1..] && t.buildHere == s.buildHere + [s.pending[k]]
  }

  predicate FirstMoved(s: Settled, t: Settled, key: string) {
    exists k :: 0 <= k < |s.pending| && MovedOver(s, t, k, key)
  }

  /** The i-th request was refused for want of one name. */
  predicate Turned(pip: Pip, n: nat, held: seq<Settled>, i: nat)
    requires i + 1 < |held|
  {
    var reply := pip(n + i, held[i].pending);
    reply.NoMatch? && FirstMoved(held[i], held[i + 1], Key(reply.token))
  }

  predicate AllTurned(pip: Pip, n: nat, held: seq<Settled>) {
    forall i :: 0 <= i < |held| - 1 ==> Turned(pip, n, held, i)
  }

  /** How it ends with the last request. */
  predicate Ended(pip: Pip, n: nat, s: Settled, r: Result<Settled, Error>) {
    match pip(n, s.pending)
    case Fetched => r == Success(s)
    case Broken => r == Failure(PipFailed)
    case NoMatch(token) => r == Failure(NotInSet(token)) && forall j :: 0 <= j < |s.pending| ==> Key(s.pending[j]) != Key(token)
  }

  lemma TurnedFirst(pip: Pip, n: nat, s: Settled, later: seq<Settled>, k: nat)
    requires later != [] && AllTurned(pip, n + 1, later) && k < |s.pending|
    requires pip(n, s.pending).NoMatch? && MovedOver(s, later[0], k, Key(pip(n, s.pending).token))
    ensures AllTurned(pip, n, [s] + later)
  {
    var held := [s] + later;
    forall i | 0 <= i < |held| - 1
      ensures Turned(pip, n, held, i)
    {
      if i > 0 {
        assert Turned(pip, n + 1, later, i - 1);
        assert held[i] == later[i - 1] && held[i + 1] == later[i];
      }
    }
  }

  /** Request after request: each but the last is refused for want of one name, whose first line
      is moved over; the last has everything, or says something else, or names what is not in
      the list. */
  lemma {:induction false} SettledTraced(pip: Pip, n: nat, s: Settled) returns (held: seq<Settled>)
    ensures held != [] && held[0] == s && AllTurned(pip, n, held)
    ensures Ended(pip, n + |held| - 1, held[|held| - 1], SettledFrom(pip, n, s))
    decreases |s.pending|
  {
    var reply := pip(n, s.pending);
    held := [s];
    if reply.NoMatch? {
      var k := FirstWith(s.pending, Key(reply.token));
      if k < |s.pending| {
        var later := SettledTraced(pip, n + 1, Move(s, k));
        TurnedFirst(pip, n, s, later, k);
        held := [s] + later;
        assert held[|held| - 1] == later[|later| - 1];
      }
    }
  }

  /** No requirement is lost and none doubled. */
  lemma {:induction false} SettledKeeps(pip: Pip, n: nat, s: Settled)
    ensures var r := SettledFrom(pip, n, s);
            r.Success? ==> multiset(r.value.pending) + multiset(r.value.buildHere) == multiset(s.pending) + multiset(s.buildHere)
    decreases |s.pending|
  {
    var reply := pip(n, s.pending);
    if reply.NoMatch? {
      var k := FirstWith(s.pending, Key(reply.token));
      if k < |s.pending| {
        WithoutBag(s.pending, k);
        SettledKeeps(pip, n + 1, Move(s, k));
      }
    }
  }

  // ---- a pip that tells the truth

  predicate AnyMissing(lines: seq<string>, has: string -> bool) { exists i :: 0 <= i < |lines| && !has(lines[i]) }

  /** pip fetches all when each has a wheel, and otherwise names one that has none. */
  ghost predicate Honest(pip: Pip, has: string -> bool) {
    forall n: nat, lines: seq<string> :: HonestAt(pip, n, lines, has)
  }

  ghost predicate HonestAt(pip: Pip, n: nat, lines: seq<string>, has: string -> bool) {
    var reply := pip(n, lines);
    if AnyMissing(lines, has) then
      reply.NoMatch? && exists i :: 0 <= i < |lines| && !has(lines[i]) && Key(lines[i]) == Key(reply.token)
    else reply == Fetched
  }

  /** Neither this line nor a later one of the same name is without a wheel. */
  predicate Stays(lines: seq<string>, i: nat, has: string -> bool)
    requires i < |lines|
  {
    forall j :: i <= j < |lines| && Key(lines[j]) == Key(lines[i]) ==> has(lines[j])
  }

  /** The lines that stay, in their order. */
  function Staying(lines: seq<string>, has: string -> bool): seq<string> {
    if lines == [] then []
    else (if Stays(lines, 0, has) then [lines[0]] else []) + Staying(lines[1..], has)
  }

  /** Taking out the first line of a name, when that name has a line without a wheel, changes
      nothing in what stays. */
  lemma {:induction false} StayingWithout(lines: seq<string>, k: nat, m: nat, has: string -> bool)
    requires k <= m < |lines| && Key(lines[m]) == Key(lines[k]) && !has(lines[m])
    requires forall j :: 0 <= j < k ==> Key(lines[j]) != Key(lines[k])
    ensures Staying(Without(lines, k), has) == Staying(lines, has)
  {
    if k == 0 {
      assert Without(lines, 0) == lines[1..];
      assert !Stays(lines, 0, has);
    } else {
      StayingWithout(lines[1..], k - 1, m - 1, has);
      var rest := Without(lines, k);
      assert rest[1..] == Without(lines[1..], k - 1);
      StaysWithout(lines, k, has);
    }
  }

  lemma StaysWithout(lines: seq<string>, k: nat, has: string -> bool)
    requires 0 < k < |lines| && Key(lines[0]) != Key(lines[k])
    ensures Stays(Without(lines, k), 0, has) <==> Stays(lines, 0, has)
  {
    var rest := Without(lines, k);
    assert forall j :: 0 <= j < k ==> rest[j] == lines[j];
    assert forall j :: k < j < |lines| ==> rest[j - 1] == lines[j];
  }

  lemma {:induction false} AllStay(lines: seq<string>, has: string -> bool)
    requires !AnyMissing(lines, has)
    ensures Staying(lines, has) == lines
  {
    if lines != [] {
      assert forall j :: 0 <= j < |lines[1..]| ==> lines[1..][j] == lines[j + 1];
      AllStay(lines[1..], has);
      assert lines == [lines[0]] + lines[1..];
    }
  }

  /** What a truthful pip names has a first line to take out, and that leaves what stays. */
  lemma HonestMove(pip: Pip, n: nat, s: Settled, has: string -> bool) returns (k: nat)
    requires HonestAt(pip, n, s.pending, has) && AnyMissing(s.pending, has)
    ensures k < |s.pending| && Staying(Move(s, k).pending, has) == Staying(s.pending, has)
    ensures SettledFrom(pip, n, s) == SettledFrom(pip, n + 1, Move(s, k))
  {
    var token := pip(n, s.pending).token;
    var m :| 0 <= m < |s.pending| && !has(s.pending[m]) && Key(s.pending[m]) == Key(token);
    k := FirstWith(s.pending, Key(token));
    StayingWithout(s.pending, k, m, has);
  }

  lemma HonestEnd(pip: Pip, n: nat, s: Settled, has: string -> bool)
    requires HonestAt(pip, n, s.pending, has) && !AnyMissing(s.pending, has)
    ensures SettledFrom(pip, n, s) == Success(s) && Staying(s.pending, has) == s.pending
  {
    AllStay(s.pending, has);
  }

  /** With a truthful pip the loop settles, and downloads exactly the lines that stay: a line
      is built here when it, or a later line of the same name, has no wheel. */
  lemma {:induction false} SettlesExactly(pip: Pip, n: nat, s: Settled, has: string -> bool)
    requires Honest(pip, has)
    ensures var r := SettledFrom(pip, n, s); r.Success? && r.value.pending == Staying(s.pending, has)
    decreases |s.pending|
  {
    assert HonestAt(pip, n, s.pending, has);
    if AnyMissing(s.pending, has) {
      var k := HonestMove(pip, n, s, has);
      SettlesExactly(pip, n + 1, Move(s, k), has);
    } else {
      HonestEnd(pip, n, s, has);
    }
  }

  /** The lines with a wheel. */
  function Having(lines: seq<string>, has: string -> bool): seq<string> {
    if lines == [] then [] else (if has(lines[0]) then [lines[0]] else []) + Having(lines[1..], has)
  }

  /** A line with a wheel stands before one of the same name without. */
  predicate Shadowed(lines: seq<string>, has: string -> bool) {
    exists i, j :: 0 <= i < j < |lines| && has(lines[i]) && Key(lines[i]) == Key(lines[j]) && !has(lines[j])
  }

  lemma {:induction false} StayingAtMost(lines: seq<string>, has: string -> bool)
    ensures |Staying(lines, has)| <= |Having(lines, has)|
  {
    if lines != [] { StayingAtMost(lines[1..], has); }
  }

  lemma ShadowedTail(lines: seq<string>, has: string -> bool)
    requires lines != []
    ensures Shadowed(lines, has) <==> Shadowed(lines[1..], has) || (has(lines[0]) && !Stays(lines, 0, has))
  {
  }

  /** That is the lines with a wheel exactly when none of them stands before a line of the
      same name without one. */
  lemma {:induction false} StayingIsHaving(lines: seq<string>, has: string -> bool)
    ensures Staying(lines, has) == Having(lines, has) <==> !Shadowed(lines, has)
  {
    if lines != [] {
      StayingIsHaving(lines[1..], has);
      ShadowedTail(lines, has);
      FirstStays(lines, has);
      var stays, first := Stays(lines, 0, has), has(lines[0]);
      var s, h := Staying(lines[1..], has), Having(lines[1..], has);
      StayingAtMost(lines[1..], has);
      FirstAdded(lines[0], s, h, stays, first);
    }
  }

  lemma FirstStays(lines: seq<string>, has: string -> bool)
    requires lines != []
    ensures Stays(lines, 0, has) ==> has(lines[0])
  {
  }

  lemma FirstAdded(a: string, s: seq<string>, h: seq<string>, stays: bool, first: bool)
    requires |s| <= |h| && (stays ==> first)
    ensures (if stays then [a] else []) + s == (if first then [a] else []) + h <==> stays == first && s == h
  {
    assert [] + s == s && [] + h == h;
    Prefixed(a, s, h);
  }

  lemma Prefixed(a: string, s: seq<string>, t: seq<string>)
    ensures [a] + s == [a] + t <==> s == t
  {
    assert ([a] + s)[1..] == s && ([a] + t)[1..] == t;
  }
}
