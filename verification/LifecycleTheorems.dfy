/** What each piece of the upgrade does and keeps, wherever it ends. */
module LifecycleTheorems {
  import opened Text
  import opened Retention
  import opened Lifecycle

  // ---- relations between states

  /** Other releases are as they were, and there are no new ones. */
  predicate OthersKept(before: map<Id, Release>, after: map<Id, Release>, id: Id) {
    && (forall other :: other in before && other != id ==> other in after && after[other] == before[other])
    && (forall other :: other in after ==> other in before || other == id)
  }

  /** The environment is there, marked, and nobody asked for a new one. */
  predicate TakenAsIs(before: map<Id, Release>, a: Request) {
    && a.id in before && !a.force
    && (before[a.id].env.Ready? || (before[a.id].env.Partial? && before[a.id].env.marked))
  }

  /** The release with its environment: taken as it was, or built and checked. */
  function EnvDone(before: map<Id, Release>, a: Request): Release {
    var r := WithNew(before, a.id, a.now)[a.id];
    if TakenAsIs(before, a) then r else r.(env := Ready, checked := true, mtime := a.now)
  }

  /** With its documents and assets; assets that are there are taken as they are. */
  function Kitted(r: Release, now: int): Release {
    r.(mtime := now, assets := if r.assets.NoAssets? then WholeAssets else r.assets)
  }

  /** The release as an upgrade that came to its switch leaves it. */
  function Finished(before: map<Id, Release>, a: Request): Release { Kitted(EnvDone(before, a), a.now) }

  /** Nothing is torn that was not. */
  predicate NoneTorn(before: map<string, Part>, after: map<string, Part>) {
    forall item :: item in after && after[item].Broken? ==> item in before && before[item].Broken?
  }

  /** Every item is as it was, from the new release, or, one at most, caught half copied. */
  ghost predicate Replaced(before: map<string, Part>, after: map<string, Part>, id: Id) {
    exists torn :: Torn(before, after, id, torn)
  }

  ghost predicate Torn(before: map<string, Part>, after: map<string, Part>, id: Id, torn: Option<string>) {
    && (forall item :: item in before ==> item in after)
    && forall item :: item in after && Some(item) != torn ==>
         after[item] == From(id) || (item in before && after[item] == before[item])
  }

  /** The items are whole and from the new release, and nothing is torn that was not. */
  predicate Copied(before: map<string, Part>, after: map<string, Part>, id: Id, items: seq<string>, plan: Plan) {
    && (forall item :: item in items ==> item in after && after[item] == From(id) && Goes(plan, CopyItem(item)))
    && NoneTorn(before, after)
  }

  /** At a copy that did not go its item is torn. */
  predicate TornAt(at: Option<Step>, deploy: map<string, Part>) {
    at.Some? && at.value.CopyItem? ==> at.value.item in deploy && deploy[at.value.item].Broken?
  }

  // ---- what the application writes

  /** Only the application was at it. */
  predicate Continues(earlier: Db, later: Db) { Extends(earlier, later) && later.schema == earlier.schema }

  lemma ExtendsTrans(a: Db, b: Db, c: Db)
    requires Extends(a, b) && Extends(b, c)
    ensures Extends(a, c)
  {
    assert c.data[..|a.data|] == c.data[..|b.data|][..|a.data|];
  }

  lemma {:induction false} OfApplicationJoin(a: seq<Write>, b: seq<Write>)
    ensures OfApplication(a + b) == OfApplication(a) + OfApplication(b)
  {
    if a == [] {
      assert a + b == b;
    } else {
      OfApplicationJoin(a[1..], b);
      assert (a + b)[1..] == a[1..] + b && (a + b)[0] == a[0];
      Assoc(Its(a[0]), OfApplication(a[1..]), OfApplication(b));
    }
  }

  lemma {:induction false} AllByApplication(data: seq<Write>)
    requires forall i :: 0 <= i < |data| ==> data[i].ByApplication?
    ensures OfApplication(data) == data
  {
    if data != [] {
      AllByApplication(data[1..]);
      assert data == [data[0]] + data[1..];
    }
  }

  lemma {:induction false} WrittenIsIts(plan: Plan, steps: seq<Step>)
    ensures OfApplication(Written(plan, steps)) == Written(plan, steps)
  {
    if steps != [] {
      WrittenIsIts(plan, steps[1..]);
      AllByApplication(Applied(plan(steps[0]).written));
      OfApplicationJoin(Applied(plan(steps[0]).written), Written(plan, steps[1..]));
    }
  }

  lemma {:induction false} WrittenJoin(plan: Plan, a: seq<Step>, b: seq<Step>)
    ensures Written(plan, a + b) == Written(plan, a) + Written(plan, b)
  {
    if a == [] {
      assert a + b == b;
    } else {
      WrittenJoin(plan, a[1..], b);
      assert (a + b)[1..] == a[1..] + b && (a + b)[0] == a[0];
      Assoc(Applied(plan(a[0]).written), Written(plan, a[1..]), Written(plan, b));
    }
  }

  /** Nothing is written exactly when nothing is written at any of the steps. */
  lemma {:induction false} NothingWritten(plan: Plan, steps: seq<Step>)
    ensures Written(plan, steps) == [] <==> forall step :: step in steps ==> plan(step).written == []
  {
    if steps != [] {
      NothingWritten(plan, steps[1..]);
      assert Applied(plan(steps[0]).written) == [] <==> plan(steps[0]).written == [];
      assert forall step :: step in steps <==> step == steps[0] || step in steps[1..];
    }
  }

  lemma OneWritten(plan: Plan, step: Step)
    ensures Written(plan, [step]) == Applied(plan(step).written)
  {
    assert [step][1..] == [];
  }

  lemma ReachedFacts(s: State, step: Step, plan: Plan)
    ensures var o := Reached(s, step, plan);
            && o.state == s.(db := Grown(s, [step], plan)) && o.at == (if Goes(plan, step) then None else Some(step))
  {
    OneWritten(plan, step);
  }

  lemma GrownTwice(s: State, t: State, a: seq<Step>, b: seq<Step>, plan: Plan)
    requires t.db == Grown(s, a, plan) && t.online == s.online
    ensures Grown(t, b, plan) == Grown(s, a + b, plan)
  {
    WrittenJoin(plan, a, b);
    Assoc(s.db.data, Written(plan, a), Written(plan, b));
  }

  lemma GrownContinues(s: State, steps: seq<Step>, plan: Plan)
    ensures Continues(s.db, Grown(s, steps, plan))
  {
  }

  /** The steps come to when the run ended at one of them, if it did. */
  function UpTo(steps: seq<Step>, at: Option<Step>): seq<Step> {
    if steps == [] then []
    else if at == Some(steps[0]) then [steps[0]]
    else [steps[0]] + UpTo(steps[1..], at)
  }

  lemma {:induction false} UpToAll(steps: seq<Step>, at: Option<Step>)
    requires at.Some? ==> at.value !in steps
    ensures UpTo(steps, at) == steps
  {
    if steps != [] {
      UpToAll(steps[1..], at);
      assert steps == [steps[0]] + steps[1..];
    }
  }

  lemma {:induction false} UpToFirst(a: seq<Step>, b: seq<Step>, at: Option<Step>)
    requires at.Some? && at.value in a
    ensures UpTo(a + b, at) == UpTo(a, at)
  {
    assert (a + b)[0] == a[0] && (a + b)[1..] == a[1..] + b;
    if at.value != a[0] { UpToFirst(a[1..], b, at); }
  }

  lemma {:induction false} UpToSecond(a: seq<Step>, b: seq<Step>, at: Option<Step>)
    requires at.Some? ==> at.value !in a
    ensures UpTo(a + b, at) == a + UpTo(b, at)
  {
    if a == [] {
      assert a + b == b;
    } else {
      assert (a + b)[0] == a[0] && (a + b)[1..] == a[1..] + b;
      UpToSecond(a[1..], b, at);
    }
  }

  /** A piece of work after another: the first went through, and the second ends at no step of
      the first. */
  lemma GrownOn(s: State, t: State, u: Db, a: seq<Step>, b: seq<Step>, at: Option<Step>, plan: Plan)
    requires t.db == Grown(s, a, plan) && t.online == s.online && u == Grown(t, UpTo(b, at), plan)
    requires at.Some? ==> at.value !in a
    ensures u == Grown(s, UpTo(a + b, at), plan)
  {
    UpToSecond(a, b, at);
    GrownTwice(s, t, a, UpTo(b, at), plan);
  }

  /** Two steps, the second only when the first goes. */
  lemma TwoSteps(s: State, t: State, first: Step, second: Step, plan: Plan)
    requires t.db == Reached(s, first, plan).state.db && t.online == s.online && first != second
    ensures var o, p := Reached(s, first, plan), Reached(t, second, plan);
            && (o.at.Some? ==> o.state.db == Grown(s, UpTo([first, second], o.at), plan))
            && (o.at.None? ==> p.state.db == Grown(s, UpTo([first, second], p.at), plan))
  {
    ReachedFacts(s, first, plan);
    ReachedFacts(t, second, plan);
    assert [first, second] == [first] + [second] && [second][1..] == [] && [first][1..] == [];
    if Goes(plan, first) {
      GrownOn(s, t, Reached(t, second, plan).state.db, [first], [second], Reached(t, second, plan).at, plan);
    }
  }

  // ---- the backup

  lemma DumpedFacts(s: State, a: Request, plan: Plan)
    ensures var o := Dumped(s, a, plan);
            && o.state == s.(db := o.state.db) && Continues(s.db, o.state.db)
            && (o.at.Some? ==> Early(o.at.value) && (!Goes(plan, o.at.value) || a.name in s.backups))
            && (o.at.None? ==> a.name !in s.backups)
  {
  }

  const KEEPING: seq<Step> := [OpenManifest, WriteManifest]

  /** The set that a backup leaves when nothing breaks off. */
  function SetOf(a: Request, db: Db): BackupDir<Saved> { BackupDir(true, a.written, Saved(db, true)) }

  lemma SetWrittenDb(s: State, a: Request, plan: Plan)
    ensures var o := SetWritten(s, a, plan);
            o.state == s.(db := Grown(s, UpTo(KEEPING, o.at), plan), backups := o.state.backups)
  {
    var saved := Saved(s.db, true);
    var first := SetBackup(s, a.name, BackupDir(false, a.written, saved));
    var second := SetBackup(Reached(first, OpenManifest, plan).state, a.name, BackupDir(true, a.written, saved.(readable := false)));
    TwoSteps(first, second, OpenManifest, WriteManifest, plan);
  }

  lemma SetWrittenFacts(s: State, a: Request, plan: Plan)
    ensures var o := SetWritten(s, a, plan);
            && o.state == s.(db := Grown(s, UpTo(KEEPING, o.at), plan), backups := o.state.backups)
            && (o.at.None? ==> o.state.backups == s.backups[a.name := SetOf(a, s.db)])
            && (forall name :: name in o.state.backups ==> name in s.backups || name == a.name)
            && (o.at.Some? ==> Early(o.at.value) && !Goes(plan, o.at.value))
  {
    SetWrittenDb(s, a, plan);
    SetWrittenSets(s, a, plan);
  }

  lemma SetWrittenSets(s: State, a: Request, plan: Plan)
    ensures var o := SetWritten(s, a, plan);
            && (o.at.None? ==> o.state.backups == s.backups[a.name := SetOf(a, s.db)])
            && (forall name :: name in o.state.backups ==> name in s.backups || name == a.name)
            && (o.at.Some? ==> Early(o.at.value) && !Goes(plan, o.at.value))
  {
  }

  /** The sets that a prune removes, in their order. */
  function Outdated(backups: Backups, sets: seq<int>, cutoff: int): seq<int> {
    if |sets| <= 1 then []
    else (if sets[0] in backups && backups[sets[0]].mtime < cutoff then [sets[0]] else []) + Outdated(backups, sets[1..], cutoff)
  }

  function Removals(names: seq<int>): seq<Step> {
    if names == [] then [] else [RemoveSet(names[0])] + Removals(names[1..])
  }

  predicate Distinct<T(==)>(xs: seq<T>) { forall i, j :: 0 <= i < j < |xs| ==> xs[i] != xs[j] }

  lemma {:induction false} OutdatedHolds(backups: Backups, sets: seq<int>, cutoff: int, name: int)
    ensures name in Outdated(backups, sets, cutoff)
       <==> exists k :: 0 <= k < |sets| - 1 && sets[k] == name && name in backups && backups[name].mtime < cutoff
  {
    if |sets| > 1 {
      OutdatedHolds(backups, sets[1..], cutoff, name);
      assert forall k :: 0 <= k < |sets| - 2 ==> sets[1..][k] == sets[k + 1];
      if k :| 0 <= k < |sets| - 1 && sets[k] == name && name in backups && backups[name].mtime < cutoff {
        assert k > 0 ==> sets[1..][k - 1] == name;
      }
    }
  }

  lemma {:induction false} OutdatedWithout(backups: Backups, sets: seq<int>, cutoff: int, gone: int)
    requires gone !in sets
    ensures Outdated(backups - {gone}, sets, cutoff) == Outdated(backups, sets, cutoff)
  {
    if |sets| > 1 {
      assert sets[0] != gone;
      OutdatedWithout(backups, sets[1..], cutoff, gone);
    }
  }

  lemma {:induction false} SetsPrunedFacts(s: State, sets: seq<int>, a: Request, plan: Plan)
    ensures var o := SetsPruned(s, sets, a, plan);
            && o.state == s.(db := o.state.db, backups := o.state.backups)
            && Continues(s.db, o.state.db) && o.state.backups.Keys <= s.backups.Keys
            && (o.at.Some? ==> o.at.value.RemoveSet? && !Goes(plan, o.at.value))
    decreases |sets|
  {
    if |sets| > 1 {
      if sets[0] !in s.backups || s.backups[sets[0]].mtime >= a.cutoff {
        SetsPrunedFacts(s, sets[1..], a, plan);
      } else {
        var o := Reached(s, RemoveSet(sets[0]), plan);
        var next := o.state.(backups := o.state.backups - {sets[0]});
        SetsPrunedFacts(next, sets[1..], a, plan);
        ExtendsTrans(s.db, o.state.db, SetsPruned(next, sets[1..], a, plan).state.db);
      }
    }
  }

  /** A prune that went through: what it removed, and what was written meanwhile. */
  lemma {:induction false} SetsPrunedExactly(s: State, sets: seq<int>, a: Request, plan: Plan)
    requires Distinct(sets) && SetsPruned(s, sets, a, plan).at.None?
    ensures var o, gone := SetsPruned(s, sets, a, plan), Outdated(s.backups, sets, a.cutoff);
            && o.state.db == Grown(s, Removals(gone), plan)
            && o.state.backups == map name | name in s.backups && name !in gone :: s.backups[name]
    decreases |sets|
  {
    if |sets| > 1 {
      assert forall i :: 0 <= i < |sets[1..]| ==> sets[1..][i] == sets[i + 1];
      if sets[0] !in s.backups || s.backups[sets[0]].mtime >= a.cutoff {
        SetsPrunedExactly(s, sets[1..], a, plan);
        assert [] + Outdated(s.backups, sets[1..], a.cutoff) == Outdated(s.backups, sets[1..], a.cutoff);
      } else {
        SetDropped(s, sets, a, plan);
      }
    }
  }

  lemma {:induction false} SetDropped(s: State, sets: seq<int>, a: Request, plan: Plan)
    requires |sets| > 1 && Distinct(sets) && SetsPruned(s, sets, a, plan).at.None?
    requires sets[0] in s.backups && s.backups[sets[0]].mtime < a.cutoff
    ensures var o, gone := SetsPruned(s, sets, a, plan), Outdated(s.backups, sets, a.cutoff);
            && o.state.db == Grown(s, Removals(gone), plan)
            && o.state.backups == map name | name in s.backups && name !in gone :: s.backups[name]
    decreases |sets|, 0
  {
    var o := Reached(s, RemoveSet(sets[0]), plan);
    var next := o.state.(backups := o.state.backups - {sets[0]});
    assert forall i :: 0 <= i < |sets[1..]| ==> sets[1..][i] == sets[i + 1];
    SetsPrunedExactly(next, sets[1..], a, plan);
    OutdatedWithout(s.backups, sets[1..], a.cutoff, sets[0]);
    var rest := Outdated(s.backups, sets[1..], a.cutoff);
    ReachedFacts(s, RemoveSet(sets[0]), plan);
    GrownTwice(s, next, [RemoveSet(sets[0])], Removals(rest), plan);
    assert ([sets[0]] + rest)[1..] == rest;
  }

  /** Of a full listing in name order, only the last set is the newest. */
  lemma OnlyLastIsNewest(all: Backups, sets: seq<int>, k: nat)
    requires ListsSets(sets, all) && k < |sets|
    ensures sets[k] in Sets(all) && (IsNewest(all, sets[k]) <==> k == |sets| - 1)
  {
    assert sets[k] in sets;
    if k < |sets| - 1 {
      assert sets[k + 1] in sets && sets[k + 1] > sets[k];
    } else {
      forall other | other in Sets(all)
        ensures other <= sets[k]
      {
        assert other in sets;
        var j :| 0 <= j < |sets| && sets[j] == other;
      }
    }
  }

  /** With the full listing in name order that is the prune. */
  lemma OutdatedIsPruned(all: Backups, sets: seq<int>, cutoff: int)
    requires ListsSets(sets, all)
    ensures (map name | name in all && name !in Outdated(all, sets, cutoff) :: all[name]) == Pruned(all, cutoff)
  {
    forall name | name in all
      ensures name in Outdated(all, sets, cutoff) <==> name !in Pruned(all, cutoff)
    {
      OutdatedHolds(all, sets, cutoff, name);
      if name in Sets(all) {
        assert name in sets;
        var k :| 0 <= k < |sets| && sets[k] == name;
        OnlyLastIsNewest(all, sets, k);
      } else {
        assert name !in sets;
      }
    }
  }

  lemma BackedUpFacts(s: State, a: Request, sets: seq<int>, plan: Plan)
    ensures var o := BackedUp(s, a, sets, plan);
            && o.state == s.(db := o.state.db, backups := o.state.backups)
            && Continues(s.db, Dumped(s, a, plan).state.db) && Continues(Dumped(s, a, plan).state.db, o.state.db)
            && (forall name :: name in o.state.backups ==> name in s.backups || name == a.name)
            && (o.at.Some? ==> Early(o.at.value) && (!Goes(plan, o.at.value) || a.name in s.backups))
            && (o.at.None? ==> a.name !in s.backups)
  {
    var d := Dumped(s, a, plan);
    DumpedFacts(s, a, plan);
    if d.at.None? {
      var w := SetWritten(d.state, a, plan);
      SetWrittenFacts(d.state, a, plan);
      if w.at.None? {
        SetsPrunedFacts(w.state, sets, a, plan);
        ExtendsTrans(d.state.db, w.state.db, SetsPruned(w.state, sets, a, plan).state.db);
      }
    }
  }

  /** A set about to be taken will outlive the prune that follows it. */
  predicate Survives(backups: Backups, name: int, written: int, cutoff: int) {
    (forall other :: other in Sets(backups) ==> other <= name) || written >= cutoff
  }

  /** The steps after the dump, up to the end of the backup. */
  function AfterDump(s: State, a: Request, sets: seq<int>, plan: Plan): seq<Step> {
    KEEPING + Removals(Outdated(s.backups[a.name := SetOf(a, Dumped(s, a, plan).state.db)], sets, a.cutoff))
  }

  /** A backup that went through. */
  lemma BackedUpExactly(s: State, a: Request, sets: seq<int>, plan: Plan)
    requires BackedUp(s, a, sets, plan).at.None? && ListedSets(s, a, sets, plan)
    ensures var o, d := BackedUp(s, a, sets, plan), Dumped(s, a, plan).state;
            && o.state.db == Grown(d, AfterDump(s, a, sets, plan), plan) && d.online == s.online
            && o.state.backups == Pruned(s.backups[a.name := SetOf(a, d.db)], a.cutoff)
  {
    var d := Dumped(s, a, plan);
    DumpedFacts(s, a, plan);
    var w := SetWritten(d.state, a, plan);
    SetWrittenFacts(d.state, a, plan);
    UpToAll(KEEPING, None);
    var all := w.state.backups;
    SetsPrunedExactly(w.state, sets, a, plan);
    OutdatedIsPruned(all, sets, a.cutoff);
    GrownTwice(d.state, w.state, KEEPING, Removals(Outdated(all, sets, a.cutoff)), plan);
  }

  /** The new set survives exactly under this condition, and holds the dump. */
  lemma NewSetKept(backups: Backups, a: Request, db: Db)
    requires a.name !in backups
    ensures var after := Pruned(backups[a.name := SetOf(a, db)], a.cutoff);
            && (a.name in after <==> Survives(backups, a.name, a.written, a.cutoff))
            && (a.name in after ==> after[a.name] == SetOf(a, db))
  {
    TakenSurvives(backups, a.name, SetOf(a, db), a.cutoff);
  }

  // ---- the new release

  function EnvSteps(taken: bool): seq<Step> { [FindPython] + (if taken then [] else [RemoveEnv, FillEnv, CheckLog]) }

  function PrepSteps(taken: bool): seq<Step> { [MakeRelease] + (EnvSteps(taken) + [BeginMaintenance, StopServices]) }

  /** What became of the environment, by the step at which its installation ended. */
  function EnvAfter(r: Release, at: Option<Step>, now: int, plan: Plan): Release {
    match at
    case None => r.(env := Ready, checked := true, mtime := now)
    case Some(RemoveEnv) => EnvBroken(r, plan(RemoveEnv).left, now)
    case Some(FillEnv) => r.(env := Partial(false), checked := false, mtime := now)
    case _ => r.(env := Ready, checked := false, mtime := now)
  }

  lemma UpdateTwice(releases: map<Id, Release>, id: Id, r: Release, q: Release)
    ensures releases[id := r][id := q] == releases[id := q]
    ensures id in releases && r == releases[id] ==> releases[id := r] == releases
  {
  }

  lemma EnvFilledRelease(s: State, id: Id, now: int, plan: Plan)
    requires id in s.releases
    ensures var o := EnvFilled(s, id, now, plan);
            && o.state == s.(db := o.state.db, releases := s.releases[id := EnvAfter(s.releases[id], o.at, now, plan)])
            && (o.at.Some? ==> (o.at.value == FillEnv || o.at.value == CheckLog) && !Goes(plan, o.at.value))
  {
    var r := s.releases[id];
    var partial, unchecked, done := EnvAfter(r, Some(FillEnv), now, plan), EnvAfter(r, Some(CheckLog), now, plan), EnvAfter(r, None, now, plan);
    UpdateTwice(s.releases, id, partial, unchecked);
    UpdateTwice(s.releases, id, unchecked, done);
  }

  /** An environment that failed the check of its log stays marked complete. */
  lemma EnvBuiltRelease(s: State, id: Id, now: int, plan: Plan)
    requires id in s.releases
    ensures var o := EnvBuilt(s, id, now, plan);
            && o.state == s.(db := o.state.db, releases := s.releases[id := EnvAfter(s.releases[id], o.at, now, plan)])
            && (o.at.Some? ==> (o.at.value == RemoveEnv || o.at.value == FillEnv || o.at.value == CheckLog) && !Goes(plan, o.at.value))
  {
    ReachedFacts(s, RemoveEnv, plan);
    EnvFilledRelease(Reached(s, RemoveEnv, plan).state, id, now, plan);
  }

  lemma EnvFilledDb(s: State, id: Id, now: int, plan: Plan)
    requires id in s.releases
    ensures var o := EnvFilled(s, id, now, plan); o.state.db == Grown(s, UpTo([FillEnv, CheckLog], o.at), plan)
  {
    var r := s.releases[id];
    var partial := SetRelease(s, id, r.(env := Partial(false), checked := false, mtime := now));
    var ready := SetRelease(Reached(partial, FillEnv, plan).state, id, r.(env := Ready, checked := false, mtime := now));
    TwoSteps(partial, ready, FillEnv, CheckLog, plan);
  }

  lemma EnvBuiltDb(s: State, id: Id, now: int, plan: Plan)
    requires id in s.releases
    ensures var o := EnvBuilt(s, id, now, plan); o.state.db == Grown(s, UpTo([RemoveEnv, FillEnv, CheckLog], o.at), plan)
  {
    var o := Reached(s, RemoveEnv, plan);
    ReachedFacts(s, RemoveEnv, plan);
    if o.at.None? {
      var p := EnvFilled(o.state, id, now, plan);
      EnvFilledDb(o.state, id, now, plan);
      EnvFilledRelease(o.state, id, now, plan);
      GrownOn(s, o.state, p.state.db, [RemoveEnv], [FillEnv, CheckLog], p.at, plan);
      assert [RemoveEnv, FillEnv, CheckLog] == [RemoveEnv] + [FillEnv, CheckLog];
    }
  }

  /** What was marked complete is taken unchecked; what is built has just passed the check. */
  lemma EnvInstalledRelease(s: State, id: Id, force: bool, now: int, plan: Plan)
    requires id in s.releases
    ensures var o := EnvInstalled(s, id, force, now, plan);
            var taken := Marked(s.releases[id].env) && !force;
            && o.state == s.(db := o.state.db, releases := o.state.releases)
            && o.state.releases == (if taken || o.at == Some(FindPython) then s.releases
                                    else s.releases[id := EnvAfter(s.releases[id], o.at, now, plan)])
            && (o.at.Some? ==> o.at.value in EnvSteps(taken) && !Goes(plan, o.at.value))
  {
    ReachedFacts(s, FindPython, plan);
    EnvBuiltRelease(Reached(s, FindPython, plan).state, id, now, plan);
  }

  lemma EnvInstalledDb(s: State, id: Id, force: bool, now: int, plan: Plan)
    requires id in s.releases
    ensures var o := EnvInstalled(s, id, force, now, plan);
            o.state.db == Grown(s, UpTo(EnvSteps(Marked(s.releases[id].env) && !force), o.at), plan)
  {
    ReachedFacts(s, FindPython, plan);
    var o := Reached(s, FindPython, plan);
    var taken := Marked(s.releases[id].env) && !force;
    if o.at.Some? {
      assert EnvSteps(taken)[0] == FindPython;
    } else if taken {
      assert EnvSteps(taken) == [FindPython] && [FindPython][1..] == [];
    } else {
      var p := EnvBuilt(o.state, id, now, plan);
      EnvBuiltDb(o.state, id, now, plan);
      EnvBuiltRelease(o.state, id, now, plan);
      GrownOn(s, o.state, p.state.db, [FindPython], [RemoveEnv, FillEnv, CheckLog], p.at, plan);
    }
  }

  lemma HaltedFacts(s: State, plan: Plan)
    ensures var o := Halted(s, plan);
            && o.state == s.(db := Grown(s, UpTo([BeginMaintenance, StopServices], o.at), plan),
                             online := o.state.online, maintenance := o.state.maintenance)
            && (o.at.Some? ==> (o.at.value == BeginMaintenance || o.at.value == StopServices) && !Goes(plan, o.at.value))
            && (o.at.None? ==> !o.state.online && o.state.maintenance)
  {
    var o := Reached(s, BeginMaintenance, plan);
    TwoSteps(s, o.state.(maintenance := true), BeginMaintenance, StopServices, plan);
  }

  predicate Preparing(at: Option<Step>, taken: bool, plan: Plan) {
    at.Some? ==> at.value in PrepSteps(taken) && !Goes(plan, at.value)
  }

  lemma PrepStepsAre(taken: bool, step: Step)
    requires step in PrepSteps(taken)
    ensures UpToSwitch(step) && !step.CopyItem? && !step.CopyAssets?
  {
  }

  lemma PreparedFacts(s: State, a: Request, plan: Plan)
    ensures var o := Prepared(s, a, plan);
            && o.state == s.(db := o.state.db, releases := o.state.releases, online := o.state.online, maintenance := o.state.maintenance)
            && Preparing(o.at, TakenAsIs(s.releases, a), plan)
            && (o.at.None? ==> !o.state.online && o.state.maintenance)
            && o.state.db == Grown(s, UpTo(PrepSteps(TakenAsIs(s.releases, a)), o.at), plan)
  {
    ReachedFacts(s, MakeRelease, plan);
    var o := ReleaseAdded(s, a, plan);
    var taken := TakenAsIs(s.releases, a);
    var rest := EnvSteps(taken) + [BeginMaintenance, StopServices];
    if o.at.None? {
      RestPrepared(o.state, a, plan);
      var p := Prepared(s, a, plan);
      GrownOn(s, o.state, p.state.db, [MakeRelease], rest, p.at, plan);
    }
  }

  /** Prepared, once the directory is there. */
  lemma RestPrepared(s: State, a: Request, plan: Plan)
    requires a.id in s.releases
    ensures var taken := Marked(s.releases[a.id].env) && !a.force;
            var steps := EnvSteps(taken) + [BeginMaintenance, StopServices];
            var p := EnvInstalled(s, a.id, a.force, a.now, plan);
            var o := if p.at.Some? then p else Halted(p.state, plan);
            && o.state == s.(db := Grown(s, UpTo(steps, o.at), plan), releases := p.state.releases,
                             online := o.state.online, maintenance := o.state.maintenance)
            && (o.at.Some? ==> o.at.value in steps && !Goes(plan, o.at.value))
            && (o.at.None? ==> !o.state.online && o.state.maintenance)
  {
    var taken := Marked(s.releases[a.id].env) && !a.force;
    var p := EnvInstalled(s, a.id, a.force, a.now, plan);
    EnvInstalledRelease(s, a.id, a.force, a.now, plan);
    EnvInstalledDb(s, a.id, a.force, a.now, plan);
    if p.at.Some? {
      UpToFirst(EnvSteps(taken), [BeginMaintenance, StopServices], p.at);
    } else {
      UpToAll(EnvSteps(taken), None);
      ThenHalted(s, p.state, EnvSteps(taken), plan);
    }
  }

  lemma ThenHalted(s: State, t: State, steps: seq<Step>, plan: Plan)
    requires t == s.(db := Grown(s, steps, plan), releases := t.releases)
    requires BeginMaintenance !in steps && StopServices !in steps
    ensures var o, all := Halted(t, plan), steps + [BeginMaintenance, StopServices];
            && o.state == s.(db := Grown(s, UpTo(all, o.at), plan), releases := t.releases,
                             online := o.state.online, maintenance := o.state.maintenance)
            && (o.at.Some? ==> o.at.value in all && !Goes(plan, o.at.value))
            && (o.at.None? ==> !o.state.online && o.state.maintenance)
  {
    HaltedFacts(t, plan);
    var o := Halted(t, plan);
    GrownOn(s, t, o.state.db, steps, [BeginMaintenance, StopServices], o.at, plan);
  }

  /** Other releases are untouched; when all went, the new one has its environment. */
  lemma PreparedReleases(s: State, a: Request, plan: Plan)
    ensures var o := Prepared(s, a, plan);
            && OthersKept(s.releases, o.state.releases, a.id) && s.releases.Keys <= o.state.releases.Keys
            && EmptyEnvAt(o.at, o.state.releases, a.id)
            && (o.at.None? ==> o.state.releases == s.releases[a.id := EnvDone(s.releases, a)])
  {
    ReachedFacts(s, MakeRelease, plan);
    var o := ReleaseAdded(s, a, plan);
    if o.at.None? {
      EnvInstalledRelease(o.state, a.id, a.force, a.now, plan);
      var p := EnvInstalled(o.state, a.id, a.force, a.now, plan);
      HaltedFacts(p.state, plan);
      AddedThenInstalled(s.releases, a, p.state.releases, p.at, plan);
    }
  }

  lemma AddedThenInstalled(before: map<Id, Release>, a: Request, after: map<Id, Release>, at: Option<Step>, plan: Plan)
    requires var added := WithNew(before, a.id, a.now);
             var taken := Marked(added[a.id].env) && !a.force;
             after == (if taken || at == Some(FindPython) then added else added[a.id := EnvAfter(added[a.id], at, a.now, plan)])
    requires at.Some? ==> at.value in EnvSteps(Marked(WithNew(before, a.id, a.now)[a.id].env) && !a.force)
    ensures OthersKept(before, after, a.id) && before.Keys <= after.Keys && EmptyEnvAt(at, after, a.id)
    ensures at.None? ==> after == before[a.id := EnvDone(before, a)]
  {
  }

  // ---- the kit

  lemma {:induction false} ItemsCopiedFacts(s: State, id: Id, items: seq<string>, plan: Plan)
    requires !s.online
    ensures var o := ItemsCopied(s, id, items, plan);
            && o.state == s.(deploy := o.state.deploy) && Faulty(plan, o.at)
            && (o.at.Some? ==> (o.at.value.OpenItem? || o.at.value.CopyItem?) && TornAt(o.at, o.state.deploy))
    decreases |items|
  {
    if items != [] {
      ReachedFacts(s, OpenItem(items[0]), plan);
      var broken := SetItem(s, items[0], Broken);
      ReachedFacts(broken, CopyItem(items[0]), plan);
      ItemsCopiedFacts(SetItem(broken, items[0], From(id)), id, items[1..], plan);
    }
  }

  lemma {:induction false} ItemsCopiedTree(s: State, id: Id, items: seq<string>, plan: Plan, before: map<string, Part>)
    requires !s.online && Torn(before, s.deploy, id, None)
    ensures var o := ItemsCopied(s, id, items, plan);
            Replaced(before, o.state.deploy, id) && (o.at.None? ==> Torn(before, o.state.deploy, id, None))
    decreases |items|
  {
    if items == [] {
      assert Torn(before, s.deploy, id, None);
    } else {
      ReachedFacts(s, OpenItem(items[0]), plan);
      var broken := SetItem(s, items[0], Broken);
      assert Torn(before, s.deploy, id, None);
      assert Torn(before, broken.deploy, id, Some(items[0]));
      ReachedFacts(broken, CopyItem(items[0]), plan);
      ItemsCopiedTree(SetItem(broken, items[0], From(id)), id, items[1..], plan, before);
    }
  }

  lemma {:induction false} ItemsCopiedAll(s: State, id: Id, items: seq<string>, plan: Plan, item: string)
    requires !s.online && ItemsCopied(s, id, items, plan).at.None?
    ensures var deploy := ItemsCopied(s, id, items, plan).state.deploy;
            && (item in s.deploy && s.deploy[item] == From(id) ==> item in deploy && deploy[item] == From(id))
            && (item in items ==> item in deploy && deploy[item] == From(id) && Goes(plan, CopyItem(item)))
    decreases |items|
  {
    if items != [] {
      ReachedFacts(s, OpenItem(items[0]), plan);
      var broken := SetItem(s, items[0], Broken);
      ReachedFacts(broken, CopyItem(items[0]), plan);
      ItemsCopiedAll(SetItem(broken, items[0], From(id)), id, items[1..], plan, item);
    }
  }

  predicate KitStep(s: Step) {
    s.OpenDocs? || s.CopyDocs? || s.OpenItem? || s.CopyItem? || s.KeepAssets? || s.CopyAssets? || s.KeepManifest?
  }

  /** The assets at a copy of them that broke off. */
  predicate TornAssetsAt(at: Option<Step>, releases: map<Id, Release>, id: Id) {
    at == Some(CopyAssets) ==> id in releases && releases[id].assets.TornAssets?
  }

  /** The environment when building it broke off. */
  predicate EmptyEnvAt(at: Option<Step>, releases: map<Id, Release>, id: Id) {
    at == Some(FillEnv) ==> id in releases && releases[id].env == Partial(false)
  }

  /** Work on the rest of the release directory leaves its environment. */
  predicate SameEnv(before: Release, after: Release) { after.env == before.env && after.checked == before.checked }

  lemma DocsCopiedFacts(s: State, id: Id, now: int, plan: Plan)
    requires !s.online && id in s.releases
    ensures var o := DocsCopied(s, id, now, plan);
            && (o.state == s || o.state == SetRelease(s, id, s.releases[id].(mtime := now)))
            && (o.at.None? ==> o.state == SetRelease(s, id, s.releases[id].(mtime := now)))
            && (o.at.Some? ==> (o.at.value.OpenDocs? || o.at.value.CopyDocs?) && !Goes(plan, o.at.value))
  {
  }

  lemma AssetsKeptFacts(s: State, id: Id, now: int, plan: Plan)
    requires !s.online && id in s.releases && s.releases[id].mtime == now
    ensures var o := AssetsKept(s, id, now, plan);
            && o.state == s.(releases := s.releases[id := s.releases[id].(assets := o.state.releases[id].assets)])
            && (o.at.None? ==> o.state.releases[id] == Kitted(s.releases[id], now))
            && (o.at == Some(CopyAssets) ==> o.state.releases[id].assets.TornAssets?)
            && (o.at.Some? ==> (o.at.value.KeepAssets? || o.at.value.CopyAssets? || o.at.value.KeepManifest?) && !Goes(plan, o.at.value))
  {
    UpdateTwice(s.releases, id, s.releases[id].(assets := TornAssets), s.releases[id].(assets := WholeAssets));
    UpdateTwice(s.releases, id, s.releases[id].(assets := s.releases[id].assets), s.releases[id]);
  }

  lemma KitCopiedFacts(s: State, a: Request, plan: Plan)
    requires !s.online && a.id in s.releases
    ensures var o := KitCopied(s, a, plan);
            && o.state == s.(deploy := o.state.deploy, releases := o.state.releases) && Faulty(plan, o.at)
            && OthersKept(s.releases, o.state.releases, a.id)
            && a.id in o.state.releases && SameEnv(s.releases[a.id], o.state.releases[a.id])
            && (o.at.None? ==> o.state.releases == s.releases[a.id := Kitted(s.releases[a.id], a.now)])
            && (o.at.Some? ==> KitStep(o.at.value)) && TornAt(o.at, o.state.deploy)
            && TornAssetsAt(o.at, o.state.releases, a.id)
  {
    DocsCopiedFacts(s, a.id, a.now, plan);
    var o := DocsCopied(s, a.id, a.now, plan);
    if o.at.None? {
      var touched := s.releases[a.id].(mtime := a.now);
      ItemsCopiedFacts(o.state, a.id, a.items, plan);
      var p := ItemsCopied(o.state, a.id, a.items, plan);
      AssetsKeptFacts(p.state, a.id, a.now, plan);
      UpdateTwice(s.releases, a.id, touched, Kitted(touched, a.now));
    }
  }

  lemma KitCopiedTree(s: State, a: Request, plan: Plan)
    requires !s.online && a.id in s.releases
    ensures var o := KitCopied(s, a, plan);
            Replaced(s.deploy, o.state.deploy, a.id) && (o.at.None? ==> Copied(s.deploy, o.state.deploy, a.id, a.items, plan))
  {
    assert Torn(s.deploy, s.deploy, a.id, None);
    DocsCopiedFacts(s, a.id, a.now, plan);
    var o := DocsCopied(s, a.id, a.now, plan);
    if o.at.None? {
      ItemsTree(s.deploy, o.state, a, plan);
      ItemsCopiedFacts(o.state, a.id, a.items, plan);
      AssetsKeptFacts(ItemsCopied(o.state, a.id, a.items, plan).state, a.id, a.now, plan);
    }
  }

  lemma ItemsTree(before: map<string, Part>, s: State, a: Request, plan: Plan)
    requires !s.online && s.deploy == before
    ensures var c := ItemsCopied(s, a.id, a.items, plan);
            Replaced(before, c.state.deploy, a.id) && (c.at.None? ==> Copied(before, c.state.deploy, a.id, a.items, plan))
  {
    var c := ItemsCopied(s, a.id, a.items, plan);
    assert Torn(before, before, a.id, None);
    ItemsCopiedTree(s, a.id, a.items, plan, before);
    if c.at.None? {
      forall item | item in a.items
        ensures item in c.state.deploy && c.state.deploy[item] == From(a.id) && Goes(plan, CopyItem(item))
      {
        ItemsCopiedAll(s, a.id, a.items, plan, item);
      }
    }
  }

  // ---- from the switch on

  lemma OneSeed(data: seq<Write>, id: Id)
    ensures OfApplication(data + [BySeed(id)]) == OfApplication(data)
  {
    OfApplicationJoin(data, [BySeed(id)]);
    assert [BySeed(id)][1..] == [];
  }

  /** Whose schema the database has, by the step at which the block ended after the switch. */
  function SchemaAt(at: Option<Step>, before: Option<Id>, id: Id): Option<Id> {
    match at
    case Some(WriteConfig) => before
    case Some(BeginMigrate) => before
    case Some(RunMigrate) => None
    case _ => Some(id)
  }

  lemma MovedFacts(s: State, id: Id, plan: Plan)
    requires !s.online
    ensures var o := Moved(s, id, plan);
            && o.state == s.(db := o.state.db) && Extends(s.db, o.state.db)
            && OfApplication(o.state.db.data) == OfApplication(s.db.data)
            && Faulty(plan, o.at)
            && (o.at.Some? ==> AfterSwitch(o.at.value) && !o.at.value.HealthCheck? && !o.at.value.StartServices?)
            && o.state.db.schema == SchemaAt(o.at, s.db.schema, id)
  {
    ReachedFacts(s, WriteConfig, plan);
    ReachedFacts(s, BeginMigrate, plan);
    ReachedFacts(s, RunMigrate, plan);
    SeededFacts(s.(db := s.db.(schema := Some(id))), id, plan);
  }

  lemma SeededFacts(s: State, id: Id, plan: Plan)
    requires !s.online
    ensures var o := Seeded(s, id, plan);
            && o.state == s.(db := o.state.db) && Extends(s.db, o.state.db) && o.state.db.schema == s.db.schema
            && OfApplication(o.state.db.data) == OfApplication(s.db.data)
            && (o.at.Some? ==> (o.at.value == ImportAssets || o.at.value == Seed) && !Goes(plan, o.at.value))
  {
    OneSeed(s.db.data, id);
    ReachedFacts(s, ImportAssets, plan);
    ReachedFacts(s.(db := s.db.(data := s.db.data + [BySeed(id)])), Seed, plan);
  }

  const STARTING: seq<Step> := [StartServices, HealthCheck]

  /** The steps after the switch at which services may be up. */
  function Started(at: Option<Step>): seq<Step> {
    if at.None? || at.value in STARTING then UpTo(STARTING, at) else []
  }

  lemma CameBackFacts(s: State, plan: Plan)
    requires !s.online
    ensures var o := CameBack(s, plan);
            && o.state == s.(db := s.db.(data := s.db.data + Written(plan, Started(o.at))), online := o.state.online, maintenance := o.state.maintenance)
            && Faulty(plan, o.at)
            && (o.at.Some? ==> AfterSwitch(o.at.value) && SchemaAt(o.at, None, "") == Some(""))
            && (o.at.None? ==> o.state.online && !o.state.maintenance && Goes(plan, HealthCheck))
  {
    var t := s.(maintenance := false, online := true);
    ReachedFacts(s, EndMaintenance, plan);
    TwoSteps(t, Reached(t, StartServices, plan).state, StartServices, HealthCheck, plan);
  }

  lemma LandedFacts(k: State, id: Id, plan: Plan)
    requires !k.online
    ensures var o := Landed(k, id, plan);
            && o.state == k.(env := id, db := o.state.db, online := o.state.online, maintenance := o.state.maintenance)
            && Extends(k.db, o.state.db)
            && OfApplication(o.state.db.data) == OfApplication(k.db.data) + Written(plan, Started(o.at))
            && Faulty(plan, o.at) && (o.at.Some? ==> AfterSwitch(o.at.value))
            && o.state.db.schema == SchemaAt(o.at, k.db.schema, id)
            && (o.at.None? ==> o.state.online && !o.state.maintenance && Goes(plan, HealthCheck))
  {
    MovedFacts(k.(env := id), id, plan);
    var r := Moved(k.(env := id), id, plan);
    if r.at.None? {
      CameBackFacts(r.state, plan);
      var c := CameBack(r.state, plan);
      ExtendsTrans(k.db, r.state.db, c.state.db);
      WrittenIsIts(plan, Started(c.at));
      OfApplicationJoin(r.state.db.data, Written(plan, Started(c.at)));
    }
  }

  // ---- from the copies on

  /** The link has not moved, and what the kit has done is no more than this. */
  predicate NotSwitched(t: State, o: Outcome, id: Id) {
    && o.at.Some? && (KitStep(o.at.value) || o.at.value.Switch?)
    && o.state == t.(deploy := o.state.deploy, releases := o.state.releases)
    && TornAt(o.at, o.state.deploy) && OthersKept(t.releases, o.state.releases, id)
    && id in t.releases && id in o.state.releases && SameEnv(t.releases[id], o.state.releases[id])
    && TornAssetsAt(o.at, o.state.releases, id)
  }

  /** The link has moved, and the new release's directory and the deploy tree are done. */
  predicate HasSwitched(t: State, o: Outcome, a: Request, plan: Plan)
    requires a.id in t.releases
  {
    && (o.at.Some? ==> AfterSwitch(o.at.value))
    && o.state == t.(env := a.id, releases := t.releases[a.id := Kitted(t.releases[a.id], a.now)], deploy := o.state.deploy,
                     db := o.state.db, online := o.state.online, maintenance := o.state.maintenance)
    && Copied(t.deploy, o.state.deploy, a.id, a.items, plan)
    && Extends(t.db, o.state.db) && o.state.db.schema == SchemaAt(o.at, t.db.schema, a.id)
    && OfApplication(o.state.db.data) == OfApplication(t.db.data) + Written(plan, Started(o.at))
    && (o.at.None? ==> o.state.online && !o.state.maintenance && Goes(plan, HealthCheck))
  }

  lemma SwitchedFacts(t: State, a: Request, plan: Plan)
    requires !t.online && a.id in t.releases
    ensures var o := Switched(t, a, plan);
            && Faulty(plan, o.at) && Replaced(t.deploy, o.state.deploy, a.id)
            && (NotSwitched(t, o, a.id) || HasSwitched(t, o, a, plan))
  {
    KitCopiedFacts(t, a, plan);
    KitCopiedTree(t, a, plan);
    var k := KitCopied(t, a, plan);
    if k.at.None? {
      SwitchedFrom(t, k.state, a, plan);
    } else {
      assert NotSwitched(t, k, a.id);
    }
  }

  lemma SwitchedFrom(t: State, k: State, a: Request, plan: Plan)
    requires !t.online && a.id in t.releases && KitCopied(t, a, plan) == Outcome(k, None)
    requires k == t.(deploy := k.deploy, releases := t.releases[a.id := Kitted(t.releases[a.id], a.now)])
    requires Replaced(t.deploy, k.deploy, a.id) && Copied(t.deploy, k.deploy, a.id, a.items, plan)
    ensures var o := Switched(t, a, plan);
            && Faulty(plan, o.at) && Replaced(t.deploy, o.state.deploy, a.id)
            && (NotSwitched(t, o, a.id) || HasSwitched(t, o, a, plan))
  {
    ReachedFacts(k, Switch, plan);
    LandedFacts(k, a.id, plan);
    if Goes(plan, Switch) {
      assert HasSwitched(t, Landed(k, a.id, plan), a, plan);
    } else {
      assert NotSwitched(t, Outcome(k, Some(Switch)), a.id);
    }
  }

  // ---- the whole `try` block

  /** Before the switch: the link and the schema are as they were. */
  predicate StillOld(s: State, o: Outcome) {
    o.state.env == s.env && o.state.db.schema == s.db.schema && o.at.Some? && UpToSwitch(o.at.value)
  }

  /** After it: the new release's directory and the deploy tree are done, and the database may
      be anywhere on its way. */
  predicate AtNew(s: State, o: Outcome, a: Request, plan: Plan) {
    && o.state.env == a.id && (o.at.Some? ==> AfterSwitch(o.at.value))
    && o.state.releases == s.releases[a.id := Finished(s.releases, a)]
    && Copied(s.deploy, o.state.deploy, a.id, a.items, plan)
    && o.state.db.schema == SchemaAt(o.at, s.db.schema, a.id)
    && (o.at.None? ==> o.state.online && !o.state.maintenance && Goes(plan, HealthCheck))
  }

  /** Whatever the block did, it kept these. */
  predicate BlockKeeps(s: State, o: Outcome, id: Id) {
    && o.state == s.(env := o.state.env, releases := o.state.releases, deploy := o.state.deploy, db := o.state.db,
                     online := o.state.online, maintenance := o.state.maintenance)
    && OthersKept(s.releases, o.state.releases, id)
    && (o.at.Some? && o.at.value.CopyItem? ==> o.state.maintenance && TornAt(o.at, o.state.deploy))
    && s.releases.Keys <= o.state.releases.Keys && TornAssetsAt(o.at, o.state.releases, id) && EmptyEnvAt(o.at, o.state.releases, id)
  }

  /** Where the `try` block ends: at the old release or at the new one. */
  lemma ChangedFacts(s: State, a: Request, plan: Plan)
    ensures var o := Changed(s, a, plan);
            && Faulty(plan, o.at) && (StillOld(s, o) || AtNew(s, o, a, plan))
            && BlockKeeps(s, o, a.id)
  {
    PreparedFacts(s, a, plan);
    PreparedReleases(s, a, plan);
    var p := Prepared(s, a, plan);
    if p.at.Some? {
      EndsEarly(s, p, a.id, TakenAsIs(s.releases, a));
    } else {
      SwitchedFacts(p.state, a, plan);
      ThenSwitched(s, p.state, Switched(p.state, a, plan), a, plan);
    }
  }

  lemma ChangedTree(s: State, a: Request, plan: Plan)
    ensures Replaced(s.deploy, Changed(s, a, plan).state.deploy, a.id)
  {
    PreparedFacts(s, a, plan);
    assert Torn(s.deploy, s.deploy, a.id, None);
    var p := Prepared(s, a, plan);
    if p.at.None? { SwitchedFacts(p.state, a, plan); }
  }

  lemma EndsEarly(s: State, o: Outcome, id: Id, taken: bool)
    requires o.at.Some? && o.at.value in PrepSteps(taken) && OthersKept(s.releases, o.state.releases, id)
    requires o.state == s.(db := o.state.db, releases := o.state.releases, online := o.state.online, maintenance := o.state.maintenance)
    requires o.state.db.schema == s.db.schema && s.releases.Keys <= o.state.releases.Keys && EmptyEnvAt(o.at, o.state.releases, id)
    ensures StillOld(s, o) && BlockKeeps(s, o, id)
  {
    PrepStepsAre(taken, o.at.value);
  }

  lemma ThenSwitched(s: State, t: State, o: Outcome, a: Request, plan: Plan)
    requires t == s.(db := t.db, releases := t.releases, online := false, maintenance := true)
    requires t.db.schema == s.db.schema && t.releases == s.releases[a.id := EnvDone(s.releases, a)]
    requires NotSwitched(t, o, a.id) || HasSwitched(t, o, a, plan)
    ensures (StillOld(s, o) || AtNew(s, o, a, plan)) && BlockKeeps(s, o, a.id)
  {
    if NotSwitched(t, o, a.id) {
      StillAtOld(s, t, o, a);
    } else {
      UpdateTwice(s.releases, a.id, EnvDone(s.releases, a), Finished(s.releases, a));
    }
  }

  lemma StillAtOld(s: State, t: State, o: Outcome, a: Request)
    requires t == s.(db := t.db, releases := t.releases, online := false, maintenance := true)
    requires t.db.schema == s.db.schema && t.releases == s.releases[a.id := EnvDone(s.releases, a)]
    requires NotSwitched(t, o, a.id)
    ensures StillOld(s, o) && BlockKeeps(s, o, a.id)
  {
  }

  /** The steps of the block at which services may be up. */
  function Online(s: State, a: Request, at: Option<Step>): seq<Step> {
    (if s.online then UpTo(PrepSteps(TakenAsIs(s.releases, a)), at) else []) + LateOnline(at)
  }

  function LateOnline(at: Option<Step>): seq<Step> {
    if at.None? || AfterSwitch(at.value) then Started(at) else []
  }

  lemma GrownIts(s: State, steps: seq<Step>, plan: Plan)
    ensures OfApplication(Grown(s, steps, plan).data) == OfApplication(s.db.data) + Written(plan, if s.online then steps else [])
    ensures Extends(s.db, Grown(s, steps, plan))
  {
    WrittenIsIts(plan, steps);
    OfApplicationJoin(s.db.data, Written(plan, steps));
  }

  /** The database only grows, by what the application writes while it is up and the seed. */
  lemma ChangedDb(s: State, a: Request, plan: Plan)
    ensures var o := Changed(s, a, plan);
            && Extends(s.db, o.state.db)
            && OfApplication(o.state.db.data) == OfApplication(s.db.data) + Written(plan, Online(s, a, o.at))
  {
    PreparedFacts(s, a, plan);
    var p := Prepared(s, a, plan);
    var steps := PrepSteps(TakenAsIs(s.releases, a));
    GrownIts(s, UpTo(steps, p.at), plan);
    if p.at.Some? {
      PrepStepsAre(TakenAsIs(s.releases, a), p.at.value);
      var passed := if s.online then UpTo(steps, p.at) else [];
      assert passed + [] == passed;
    } else {
      UpToAll(steps, None);
      SwitchedFacts(p.state, a, plan);
      var o := Switched(p.state, a, plan);
      OnlineLater(s, a, o.at);
      SwitchedDb(s.db, p.state, o, a, if s.online then steps else [], plan);
    }
  }

  /** After the preparations the same steps have been passed wherever the run ends. */
  lemma OnlineLater(s: State, a: Request, at: Option<Step>)
    requires at.Some? ==> AfterSwitch(at.value) || at.value.Switch? || KitStep(at.value)
    ensures Online(s, a, at) == (if s.online then PrepSteps(TakenAsIs(s.releases, a)) else []) + LateOnline(at)
  {
    UpToAll(PrepSteps(TakenAsIs(s.releases, a)), at);
  }

  lemma SwitchedDb(s: Db, t: State, o: Outcome, a: Request, passed: seq<Step>, plan: Plan)
    requires a.id in t.releases && (NotSwitched(t, o, a.id) || HasSwitched(t, o, a, plan))
    requires Extends(s, t.db) && OfApplication(t.db.data) == OfApplication(s.data) + Written(plan, passed)
    ensures Extends(s, o.state.db)
    ensures OfApplication(o.state.db.data) == OfApplication(s.data) + Written(plan, passed + LateOnline(o.at))
  {
    if NotSwitched(t, o, a.id) {
      assert passed + [] == passed;
    } else {
      WrittenJoin(plan, passed, Started(o.at));
      ExtendsTrans(s, t.db, o.state.db);
      Assoc(OfApplication(s.data), Written(plan, passed), Written(plan, Started(o.at)));
    }
  }

  // ---- marked environments

  /** What is marked as complete is. */
  predicate SoundRelease(r: Release) { Marked(r.env) ==> r.env.Ready? }

  predicate Sound(releases: map<Id, Release>) { forall r :: r in releases ==> SoundRelease(releases[r]) }

  /** No removal that breaks off leaves the marker of what it has begun to remove. */
  ghost predicate Tidy(plan: Plan) { forall step: Step :: TidyAt(plan, step) }

  predicate TidyAt(plan: Plan, step: Step) { plan(step).left.body.InPieces? ==> !plan(step).left.marker }

  lemma PreparedSound(s: State, a: Request, plan: Plan)
    requires Sound(s.releases) && Tidy(plan)
    ensures Sound(Prepared(s, a, plan).state.releases)
  {
    ReachedFacts(s, MakeRelease, plan);
    var o := ReleaseAdded(s, a, plan);
    if o.at.None? {
      EnvInstalledRelease(o.state, a.id, a.force, a.now, plan);
      var p := EnvInstalled(o.state, a.id, a.force, a.now, plan);
      HaltedFacts(p.state, plan);
      assert TidyAt(plan, RemoveEnv);
      InstalledSound(s.releases, a, p.state.releases, p.at, plan);
    }
  }

  lemma InstalledSound(before: map<Id, Release>, a: Request, after: map<Id, Release>, at: Option<Step>, plan: Plan)
    requires Sound(before) && TidyAt(plan, RemoveEnv)
    requires var added := WithNew(before, a.id, a.now);
             var taken := Marked(added[a.id].env) && !a.force;
             after == (if taken || at == Some(FindPython) then added else added[a.id := EnvAfter(added[a.id], at, a.now, plan)])
    ensures Sound(after)
  {
  }

  lemma ChangedSound(s: State, a: Request, plan: Plan)
    requires Sound(s.releases) && Tidy(plan)
    ensures Sound(Changed(s, a, plan).state.releases)
  {
    PreparedSound(s, a, plan);
    PreparedFacts(s, a, plan);
    var p := Prepared(s, a, plan);
    if p.at.None? {
      SwitchedFacts(p.state, a, plan);
      SwitchedSound(p.state, Switched(p.state, a, plan), a, plan);
    }
  }

  lemma SwitchedSound(t: State, o: Outcome, a: Request, plan: Plan)
    requires a.id in t.releases && Sound(t.releases) && (NotSwitched(t, o, a.id) || HasSwitched(t, o, a, plan))
    ensures Sound(o.state.releases)
  {
  }

  lemma {:induction false} PrunedSound(s: State, rest: seq<Id>, now: int, plan: Plan)
    requires Sound(s.releases) && Tidy(plan)
    ensures Sound(ReleasesPruned(s, rest, now, plan).state.releases)
    decreases |rest|
  {
    if rest != [] {
      if rest[0] == s.env || rest[0] !in s.releases {
        PrunedSound(s, rest[1..], now, plan);
      } else {
        assert TidyAt(plan, RemoveRelease(rest[0]));
        DroppedFacts(s, rest[0], now, plan);
        PrunedSound(Dropped(s, rest[0], now, plan), rest[1..], now, plan);
      }
    }
  }

  lemma ConcludedSound(s: State, a: Request, dirs: seq<Id>, plan: Plan)
    requires Sound(s.releases) && Tidy(plan)
    ensures Sound(Concluded(s, a, dirs, plan).state.releases)
  {
    RecordedFacts(s, a.id, plan);
    var o := Recorded(s, a.id, plan);
    if o.at.None? && Goes(plan, CleanUp) {
      ReachedFacts(o.state, CleanUp, plan);
      PrunedSound(Reached(o.state, CleanUp, plan).state, Rest(dirs, 2), a.now, plan);
    }
  }

  // ---- the end

  lemma RecordedFacts(s: State, id: Id, plan: Plan)
    ensures var o := Recorded(s, id, plan);
            && o.state == s.(db := o.state.db, record := o.state.record) && Continues(s.db, o.state.db)
            && (s.record.Truncated? ==> o.at == Some(OpenRecord) && o.state.record == Truncated)
            && (o.at.Some? ==> (o.at.value.OpenRecord? || o.at.value.WriteRecord?) && (Goes(plan, o.at.value) ==> s.record.Truncated?))
            && (o.at == Some(OpenRecord) ==> o.state.record == s.record)
            && (o.at == Some(WriteRecord) ==> o.state.record == Truncated)
            && (o.at.None? ==> s.record.Intact? && o.state.record == Intact(s.record.entries + [Record("upgrade", id)]))
  {
  }

  /** The removals come to, up to the one that the run stopped at, if it did. */
  function Met(rest: seq<Id>, at: Option<Step>): seq<Id> {
    if rest == [] then []
    else if at == Some(RemoveRelease(rest[0])) then [rest[0]]
    else [rest[0]] + Met(rest[1..], at)
  }

  lemma {:induction false} MetAll(rest: seq<Id>)
    ensures Met(rest, None) == rest
  {
    if rest != [] {
      MetAll(rest[1..]);
      assert rest == [rest[0]] + rest[1..];
    }
  }

  /** What one release comes to in the prune. */
  predicate PrunedTo(before: map<Id, Release>, after: map<Id, Release>, r: Id, met: bool, now: int, plan: Plan)
    requires r in before
  {
    if !met then r in after && after[r] == before[r]
    else if Goes(plan, RemoveRelease(r)) then r !in after
    else r in after && after[r] == Remains(before[r], plan(RemoveRelease(r)).left, now)
  }

  lemma DroppedFacts(s: State, id: Id, now: int, plan: Plan)
    requires id in s.releases
    ensures var t := Dropped(s, id, now, plan);
            && t == s.(db := t.db, releases := t.releases) && Continues(s.db, t.db) && t.releases.Keys <= s.releases.Keys
            && PrunedTo(s.releases, t.releases, id, true, now, plan)
            && OthersKept(s.releases, t.releases, id)
  {
    ReachedFacts(s, RemoveRelease(id), plan);
  }

  lemma {:induction false} ReleasesPrunedFacts(s: State, rest: seq<Id>, now: int, plan: Plan)
    ensures var o := ReleasesPruned(s, rest, now, plan);
            && o.state == s.(db := o.state.db, releases := o.state.releases) && Continues(s.db, o.state.db)
            && o.state.releases.Keys <= s.releases.Keys
            && (o.at.Some? ==> o.at.value.RemoveRelease? && o.at.value.release in rest && plan(o.at.value).fault.Stop?)
    decreases |rest|
  {
    if rest != [] {
      if rest[0] == s.env || rest[0] !in s.releases {
        ReleasesPrunedFacts(s, rest[1..], now, plan);
      } else {
        var next := Dropped(s, rest[0], now, plan);
        DroppedFacts(s, rest[0], now, plan);
        if !plan(RemoveRelease(rest[0])).fault.Stop? {
          ReleasesPrunedFacts(next, rest[1..], now, plan);
          ExtendsTrans(s.db, next.db, ReleasesPruned(next, rest[1..], now, plan).state.db);
        }
      }
    }
  }

  /** A release that the removals do not come to stays as it is. */
  lemma {:induction false} NeverMet(s: State, rest: seq<Id>, now: int, plan: Plan, r: Id)
    requires r in s.releases && (r == s.env || r !in rest)
    ensures var o := ReleasesPruned(s, rest, now, plan); r in o.state.releases && o.state.releases[r] == s.releases[r]
    decreases |rest|
  {
    if rest != [] {
      if rest[0] == s.env || rest[0] !in s.releases {
        NeverMet(s, rest[1..], now, plan, r);
      } else {
        var next := Dropped(s, rest[0], now, plan);
        DroppedFacts(s, rest[0], now, plan);
        if !plan(RemoveRelease(rest[0])).fault.Stop? { NeverMet(next, rest[1..], now, plan, r); }
      }
    }
  }

  lemma {:induction false} ReleasePruned(s: State, rest: seq<Id>, now: int, plan: Plan, r: Id)
    requires r in s.releases && Distinct(rest)
    ensures var o := ReleasesPruned(s, rest, now, plan);
            PrunedTo(s.releases, o.state.releases, r, r != s.env && r in Met(rest, o.at), now, plan)
    decreases |rest|
  {
    if r == s.env {
      NeverMet(s, rest, now, plan, r);
    } else if rest != [] {
      assert forall i :: 0 <= i < |rest[1..]| ==> rest[1..][i] == rest[i + 1] && rest[0] != rest[i + 1];
      if rest[0] == s.env || rest[0] !in s.releases {
        ReleasePruned(s, rest[1..], now, plan, r);
        NotMet(s, rest, now, plan);
      } else if r == rest[0] {
        FirstPruned(s, rest, now, plan);
      } else {
        LaterPruned(s, rest, now, plan, r);
      }
    }
  }

  /** The run does not stop at a release that it passes over. */
  lemma NotMet(s: State, rest: seq<Id>, now: int, plan: Plan)
    requires rest != [] && Distinct(rest) && (rest[0] == s.env || rest[0] !in s.releases)
    ensures var at := ReleasesPruned(s, rest, now, plan).at; Met(rest, at) == [rest[0]] + Met(rest[1..], at)
  {
    ReleasesPrunedFacts(s, rest[1..], now, plan);
    assert forall i :: 0 <= i < |rest[1..]| ==> rest[1..][i] == rest[i + 1] && rest[0] != rest[i + 1];
  }

  lemma FirstPruned(s: State, rest: seq<Id>, now: int, plan: Plan)
    requires rest != [] && Distinct(rest) && rest[0] != s.env && rest[0] in s.releases
    ensures var o := ReleasesPruned(s, rest, now, plan);
            PrunedTo(s.releases, o.state.releases, rest[0], true, now, plan) && rest[0] in Met(rest, o.at)
  {
    var next := Dropped(s, rest[0], now, plan);
    DroppedFacts(s, rest[0], now, plan);
    assert forall i :: 0 <= i < |rest[1..]| ==> rest[1..][i] == rest[i + 1] && rest[0] != rest[i + 1];
    if !plan(RemoveRelease(rest[0])).fault.Stop? {
      ReleasesPrunedFacts(next, rest[1..], now, plan);
      if rest[0] in next.releases { NeverMet(next, rest[1..], now, plan, rest[0]); }
    }
  }

  lemma {:induction false} LaterPruned(s: State, rest: seq<Id>, now: int, plan: Plan, r: Id)
    requires rest != [] && Distinct(rest) && rest[0] != s.env && rest[0] in s.releases
    requires r in s.releases && r != s.env && r != rest[0]
    ensures var o := ReleasesPruned(s, rest, now, plan);
            PrunedTo(s.releases, o.state.releases, r, r in Met(rest, o.at), now, plan)
    decreases |rest|, 0
  {
    var next := Dropped(s, rest[0], now, plan);
    DroppedFacts(s, rest[0], now, plan);
    assert forall i :: 0 <= i < |rest[1..]| ==> rest[1..][i] == rest[i + 1] && rest[0] != rest[i + 1];
    if !plan(RemoveRelease(rest[0])).fault.Stop? {
      ReleasePruned(next, rest[1..], now, plan, r);
      ReleasesPrunedFacts(next, rest[1..], now, plan);
      var at := ReleasesPruned(next, rest[1..], now, plan).at;
      assert Met(rest, at) == [rest[0]] + Met(rest[1..], at);
    }
  }

  lemma {:induction false} MetWithin(rest: seq<Id>, at: Option<Step>)
    ensures forall r :: r in Met(rest, at) ==> r in rest
  {
    if rest != [] { MetWithin(rest[1..], at); }
  }

  lemma ConcludedFacts(s: State, a: Request, dirs: seq<Id>, plan: Plan)
    ensures var o := Concluded(s, a, dirs, plan);
            && o.state == s.(db := o.state.db, record := o.state.record, releases := o.state.releases)
            && Continues(s.db, o.state.db) && o.state.releases.Keys <= s.releases.Keys
            && (o.at.Some? ==> Late(o.at.value) && (Goes(plan, o.at.value) ==> o.at.value.OpenRecord? && s.record.Truncated?))
            && (o.at.Some? && !o.at.value.RemoveRelease? ==> o.state.releases == s.releases)
            && (o.at.Some? && o.at.value.RemoveRelease? ==> plan(o.at.value).fault.Stop? && o.at.value.release in Rest(dirs, 2))
            && (o.at.None? || o.at.value.RemoveRelease? || o.at.value.CleanUp? ==> Recorded(s, a.id, plan).at.None?)
            && o.state.record == Recorded(s, a.id, plan).state.record
  {
    RecordedFacts(s, a.id, plan);
    var r := Recorded(s, a.id, plan);
    if r.at.None? {
      ReachedFacts(r.state, CleanUp, plan);
      GrownContinues(r.state, [CleanUp], plan);
      var c := Reached(r.state, CleanUp, plan);
      ReleasesPrunedFacts(c.state, Rest(dirs, 2), a.now, plan);
      ExtendsTrans(s.db, r.state.db, c.state.db);
      ExtendsTrans(s.db, c.state.db, ReleasesPruned(c.state, Rest(dirs, 2), a.now, plan).state.db);
    }
  }

  /** The prune that the run came to, release by release. */
  lemma ConcludedRelease(s: State, a: Request, dirs: seq<Id>, plan: Plan, r: Id)
    requires r in s.releases && Distinct(dirs)
    ensures var o := Concluded(s, a, dirs, plan);
            (o.at.None? || o.at.value.RemoveRelease?) ==>
              PrunedTo(s.releases, o.state.releases, r, r != s.env && r in Met(Rest(dirs, 2), o.at), a.now, plan)
  {
    ConcludedFacts(s, a, dirs, plan);
    RecordedFacts(s, a.id, plan);
    var o := Recorded(s, a.id, plan);
    if o.at.None? && Goes(plan, CleanUp) {
      ReachedFacts(o.state, CleanUp, plan);
      ReleasePruned(Reached(o.state, CleanUp, plan).state, Rest(dirs, 2), a.now, plan, r);
    }
  }
}
