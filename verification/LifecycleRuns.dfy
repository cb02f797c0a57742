/** Safety of whole runs: an upgrade stopped or failed at any step, the rollback after it, and
    any sequence of both. */
module LifecycleRuns {
  import opened Text
  import opened Retention
  import opened Lifecycle
  import opened LifecycleTheorems
  import LifecycleHost

  // ---- the parts of a run

  function Asked(s: State, plan: Plan): State { Reached(s, Preflight, plan).state }

  /** The run took a backup and went on. */
  predicate WentOn(s: State, a: Request, t: Trace, plan: Plan) {
    Goes(plan, Preflight) && !NothingToDo(s, a) && BackedUp(Asked(s, plan), a, t.sets, plan).at.None?
  }

  /** Where it went on from. */
  function Mid(s: State, a: Request, t: Trace, plan: Plan): State { BackedUp(Asked(s, plan), a, t.sets, plan).state }

  /** The run came to its dump. */
  predicate DumpTaken(s: State, a: Request, plan: Plan) {
    Goes(plan, Preflight) && !NothingToDo(s, a) && Dumped(Asked(s, plan), a, plan).at.None?
  }

  /** Only the database and the backups may have changed, the database by the application. */
  predicate OnlyBackups(s: State, m: State) { m == s.(db := m.db, backups := m.backups) && Continues(s.db, m.db) }

  lemma RunStart(s: State, e: End, t: Trace, a: Request, plan: Plan)
    requires IsRun(s, e, t, a, plan)
    ensures OnlyBackups(s, Mid(s, a, t, plan))
    ensures WentOn(s, a, t, plan) ==>
              e == Carried(Mid(s, a, t, plan), a, t.dirs, plan) && ListedReleases(Mid(s, a, t, plan), a, t.dirs, plan)
              && a.name !in s.backups
    ensures !WentOn(s, a, t, plan) ==>
              && OnlyBackups(s, e.state) && (e.exit.Refused? || e.exit.NoChange? || e.exit.Stopped?)
              && (forall name :: name in e.state.backups ==> name in s.backups || name == a.name)
              && (if Goes(plan, Preflight) && NothingToDo(s, a) then e.exit.NoChange? && e.at.None? && e.state == Asked(s, plan)
                  else e.at.Some? && Early(e.at.value) && (!Goes(plan, e.at.value) || a.name in s.backups)
                       && e.exit == Cut(plan, e.at.value, Refused))
  {
    var asked := Asked(s, plan);
    ReachedFacts(s, Preflight, plan);
    GrownContinues(s, [Preflight], plan);
    BackedUpFacts(asked, a, t.sets, plan);
    ExtendsTrans(s.db, asked.db, DumpOf(s, a, plan));
    ExtendsTrans(s.db, DumpOf(s, a, plan), Mid(s, a, t, plan).db);
  }

  /** The backup of a run that went on. */
  lemma MidBackups(s: State, e: End, t: Trace, a: Request, plan: Plan)
    requires IsRun(s, e, t, a, plan) && WentOn(s, a, t, plan)
    ensures var m, dump := Mid(s, a, t, plan), DumpOf(s, a, plan);
            && m.backups == Pruned(s.backups[a.name := SetOf(a, dump)], a.cutoff)
            && Continues(s.db, dump) && Continues(dump, m.db)
            && OfApplication(m.db.data) == OfApplication(dump.data) + Written(plan, if s.online then AfterDump(Asked(s, plan), a, t.sets, plan) else [])
  {
    var asked := Asked(s, plan);
    ReachedFacts(s, Preflight, plan);
    GrownContinues(s, [Preflight], plan);
    BackedUpFacts(asked, a, t.sets, plan);
    BackedUpExactly(asked, a, t.sets, plan);
    ExtendsTrans(s.db, asked.db, DumpOf(s, a, plan));
    GrownIts(Dumped(asked, a, plan).state, AfterDump(asked, a, t.sets, plan), plan);
  }

  /** After the block only the record, the database and the releases may change. */
  predicate OnlyEnd(c: State, e: State) {
    && e == c.(db := e.db, record := e.record, releases := e.releases)
    && Continues(c.db, e.db) && e.releases.Keys <= c.releases.Keys
  }

  lemma CarriedFacts(m: State, a: Request, dirs: seq<Id>, plan: Plan)
    ensures var c, e := Changed(m, a, plan), Carried(m, a, dirs, plan);
            && OnlyEnd(c.state, e.state)
            && (c.at.Some? ==> e.state == c.state && e.at == c.at && e.exit == Cut(plan, c.at.value, Failed))
            && (c.at.None? ==> (if e.at.None? then e.exit.Upgraded? else e.exit.Stopped? && Late(e.at.value)))
            && (c.at.None? && e.at.Some? && !e.at.value.RemoveRelease? ==> e.state.releases == c.state.releases)
            && (c.at.None? && e.at.Some? && Goes(plan, e.at.value) ==> e.at.value.OpenRecord? && c.state.record.Truncated?)
            && (c.at.None? && e.at.Some? && e.at.value.RemoveRelease? ==> plan(e.at.value).fault.Stop? && e.at.value.release in Rest(dirs, 2))
            && (c.at.None? ==> e.state.record == Recorded(c.state, a.id, plan).state.record)
            && (c.at.None? && (e.at.None? || e.at.value.RemoveRelease?) ==> Recorded(c.state, a.id, plan).at.None? && Goes(plan, CleanUp))
  {
    var c := Changed(m, a, plan);
    if c.at.None? {
      ConcludedFacts(c.state, a, dirs, plan);
    }
  }

  // ---- every run of the upgrade

  /** The database only grows. The dump holds what was in it at the start and what the
      application had written since; whatever is written later comes after it. */
  lemma DumpComesFirst(s: State, e: End, t: Trace, a: Request, plan: Plan)
    requires IsRun(s, e, t, a, plan)
    ensures Extends(s.db, e.state.db)
    ensures DumpTaken(s, a, plan) ==> Continues(s.db, DumpOf(s, a, plan)) && Extends(DumpOf(s, a, plan), e.state.db)
  {
    RunStart(s, e, t, a, plan);
    var asked, m := Asked(s, plan), Mid(s, a, t, plan);
    ReachedFacts(s, Preflight, plan);
    GrownContinues(s, [Preflight], plan);
    BackedUpFacts(asked, a, t.sets, plan);
    ExtendsTrans(s.db, asked.db, DumpOf(s, a, plan));
    if WentOn(s, a, t, plan) {
      ChangedDb(m, a, plan);
      CarriedFacts(m, a, t.dirs, plan);
      var c := Changed(m, a, plan).state;
      ExtendsTrans(m.db, c.db, e.state.db);
      ExtendsTrans(s.db, m.db, e.state.db);
      ExtendsTrans(DumpOf(s, a, plan), m.db, e.state.db);
    }
  }

  /** The backup this run leaves: there exactly when it outlives its own prune, and then it is
      the dump. */
  predicate BackupLeft(s: State, e: State, a: Request, plan: Plan) {
    && (a.name in e.backups <==> Survives(s.backups, a.name, a.written, a.cutoff))
    && (a.name in e.backups ==> e.backups[a.name] == SetOf(a, DumpOf(s, a, plan)))
  }

  /** Nothing but what the application writes happens before a backup is complete. */
  lemma NothingBeforeBackup(s: State, e: End, t: Trace, a: Request, plan: Plan)
    requires IsRun(s, e, t, a, plan)
    ensures e.exit.NoChange? <==> Goes(plan, Preflight) && a.id == s.env && !a.force
    ensures e.exit.NoChange? ==> e.state == Asked(s, plan)
    ensures e.exit.Refused? ==> OnlyBackups(s, e.state)
    ensures !OnlyBackups(s, e.state) || e.exit.Failed? || e.exit.Upgraded? ==>
              DumpTaken(s, a, plan) && a.name !in s.backups && BackupLeft(s, e.state, a, plan)
  {
    RunStart(s, e, t, a, plan);
    if WentOn(s, a, t, plan) {
      var m := Mid(s, a, t, plan);
      MidBackups(s, e, t, a, plan);
      NewSetKept(s.backups, a, DumpOf(s, a, plan));
      ChangedFacts(m, a, plan);
      CarriedFacts(m, a, t.dirs, plan);
      BackedUpFacts(Asked(s, plan), a, t.sets, plan);
    }
  }

  /** How a run ends, and at which step: at one that did not go, but for a backup whose name
      was taken and a history that was truncated before. */
  predicate Ends(e: End, plan: Plan, nameTaken: bool, truncated: bool) {
    match e.exit
    case Upgraded => e.at.None?
    case NoChange => e.at.None?
    case Refused => e.at.Some? && Early(e.at.value) && (nameTaken || !Goes(plan, e.at.value))
    case Failed => e.at.Some? && (UpToSwitch(e.at.value) || AfterSwitch(e.at.value)) && plan(e.at.value).fault.Error?
    case Stopped =>
      e.at.Some? && (plan(e.at.value).fault.Stop? || (Late(e.at.value) && (!Goes(plan, e.at.value) || (truncated && e.at.value.OpenRecord?))))
  }

  lemma HowItEnds(s: State, e: End, t: Trace, a: Request, plan: Plan)
    requires IsRun(s, e, t, a, plan)
    ensures Ends(e, plan, a.name in s.backups, s.record.Truncated?)
  {
    RunStart(s, e, t, a, plan);
    if WentOn(s, a, t, plan) {
      var m := Mid(s, a, t, plan);
      ChangedFacts(m, a, plan);
      CarriedFacts(m, a, t.dirs, plan);
    }
  }

  /** What a run that came past its switch leaves of the new release: the assets are whole
      exactly when they were not torn before. */
  lemma FinishedParts(before: map<Id, Release>, a: Request)
    ensures Finished(before, a).assets.WholeAssets? <==> !(a.id in before && before[a.id].assets.TornAssets?)
    ensures Finished(before, a).mtime == a.now
    ensures Finished(before, a).env.Ready? <==> !(TakenAsIs(before, a) && before[a.id].env.Partial?)
    ensures Finished(before, a).checked <==> (TakenAsIs(before, a) ==> before[a.id].checked)
  {
  }

  /** A failed run is at the old release, its database not migrated, or at the new one. */
  lemma FailedWhere(s: State, e: End, t: Trace, a: Request, plan: Plan)
    requires IsRun(s, e, t, a, plan) && e.exit.Failed?
    ensures e.at.Some? && e.state.record == s.record && e.state.superuser == s.superuser
    ensures OthersKept(s.releases, e.state.releases, a.id)
    ensures UpToSwitch(e.at.value) ==> e.state.env == s.env && e.state.db.schema == s.db.schema
    ensures AfterSwitch(e.at.value) ==>
              && e.state.env == a.id && e.state.releases == s.releases[a.id := Finished(s.releases, a)]
              && Copied(s.deploy, e.state.deploy, a.id, a.items, plan)
              && e.state.db.schema == SchemaAt(e.at, s.db.schema, a.id)
              && (e.state.releases[a.id].assets.WholeAssets? <==> !(a.id in s.releases && s.releases[a.id].assets.TornAssets?))
    ensures e.at.value.CopyItem? ==> e.state.maintenance && TornAt(e.at, e.state.deploy)
  {
    RunStart(s, e, t, a, plan);
    var m := Mid(s, a, t, plan);
    ChangedFacts(m, a, plan);
    CarriedFacts(m, a, t.dirs, plan);
  }

  /** Until the upgrade has come to its prune the way back is intact, and the record gains at
      most the upgrade or is truncated. */
  lemma WayBackIntact(s: State, e: End, t: Trace, a: Request, plan: Plan)
    requires IsRun(s, e, t, a, plan) && !e.exit.Upgraded?
    ensures !(e.at.Some? && e.at.value.RemoveRelease?) ==> OthersKept(s.releases, e.state.releases, a.id)
    ensures !e.exit.Stopped? ==> e.state.record == s.record
    ensures e.state.record == s.record || e.state.record == Truncated
            || (s.record.Intact? && e.state.record == Intact(s.record.entries + [Record("upgrade", a.id)]))
    ensures e.state.record != s.record ==> e.at.Some? && Late(e.at.value)
  {
    RunStart(s, e, t, a, plan);
    if WentOn(s, a, t, plan) {
      var m := Mid(s, a, t, plan);
      ChangedFacts(m, a, plan);
      CarriedFacts(m, a, t.dirs, plan);
      RecordedFacts(Changed(m, a, plan).state, a.id, plan);
    }
  }

  /** A run that came to its prune, release by release: the first two of the listing and those
      not come to are as they were; the others are gone, or, where the removal did not go
      through, what it left of them. The listing goes by the times with the new release's. */
  lemma PruneOfRun(s: State, e: End, t: Trace, a: Request, plan: Plan, r: Id)
    requires IsRun(s, e, t, a, plan) && (e.exit.Upgraded? || (e.at.Some? && e.at.value.RemoveRelease?))
    requires r in s.releases || r == a.id
    ensures var before := s.releases[a.id := Finished(s.releases, a)];
            && Listing(t.dirs, before.Keys, Ages(Times(before))) && e.state.env == a.id
            && PrunedTo(before, e.state.releases, r, r != a.id && r in Met(Rest(t.dirs, 2), e.at), a.now, plan)
  {
    ListingOfRun(s, e, t, a, plan);
    ConcludedRelease(Changed(Mid(s, a, t, plan), a, plan).state, a, t.dirs, plan, r);
  }

  /** The state that the prune of a run began with, and its listing. */
  lemma ListingOfRun(s: State, e: End, t: Trace, a: Request, plan: Plan)
    requires IsRun(s, e, t, a, plan) && (e.exit.Upgraded? || (e.at.Some? && e.at.value.RemoveRelease?))
    ensures var before, c := s.releases[a.id := Finished(s.releases, a)], Changed(Mid(s, a, t, plan), a, plan);
            && c.at.None? && c.state.releases == before && c.state.env == a.id && e.state.env == a.id
            && (e.at.Some? ==> e.at.value.RemoveRelease?)
            && Outcome(e.state, e.at) == Concluded(c.state, a, t.dirs, plan)
            && Listing(t.dirs, before.Keys, Ages(Times(before)))
  {
    RunStart(s, e, t, a, plan);
    var m := Mid(s, a, t, plan);
    ChangedFacts(m, a, plan);
    CarriedFacts(m, a, t.dirs, plan);
  }

  /** The old release at a stop inside the prune: there, as it was, when it is among the two
      newest or was not come to. */
  lemma StoppedInPrune(s: State, e: End, t: Trace, a: Request, plan: Plan)
    requires IsRun(s, e, t, a, plan) && e.at.Some? && e.at.value.RemoveRelease?
    requires s.env in s.releases && a.id != s.env
    ensures s.env in t.dirs && (s.env in Kept(t.dirs, 2, a.id) || s.env !in Met(Rest(t.dirs, 2), e.at) ==>
              s.env in e.state.releases && e.state.releases[s.env] == s.releases[s.env])
    ensures s.env !in Kept(t.dirs, 2, a.id) && s.env in Met(Rest(t.dirs, 2), e.at) ==>
              PrunedTo(s.releases, e.state.releases, s.env, true, a.now, plan)
  {
    PruneOfRun(s, e, t, a, plan, s.env);
    MetWithin(Rest(t.dirs, 2), e.at);
    KeptNotRest(t.dirs, 2, a.id, s.env);
  }

  lemma KeptNotRest(dirs: seq<Id>, keep: nat, current: Id, r: Id)
    requires Distinct(dirs) && r != current && r in dirs
    ensures r in Kept(dirs, keep, current) <==> r !in Rest(dirs, keep)
  {
    var p :| 0 <= p < |dirs| && dirs[p] == r;
    if keep <= |dirs| {
      assert p >= keep ==> Rest(dirs, keep)[p - keep] == r;
    }
    assert p < keep ==> dirs[p] in Kept(dirs, keep, current);
  }

  /** Each item of the deploy tree is old or new, one at most torn; none once the link has
      moved. */
  lemma TreeIsOldOrNew(s: State, e: End, t: Trace, a: Request, plan: Plan)
    requires IsRun(s, e, t, a, plan)
    ensures Replaced(s.deploy, e.state.deploy, a.id)
    ensures a.id != s.env && e.state.env == a.id ==> NoneTorn(s.deploy, e.state.deploy)
  {
    assert Torn(s.deploy, s.deploy, a.id, None);
    RunStart(s, e, t, a, plan);
    if WentOn(s, a, t, plan) {
      var m := Mid(s, a, t, plan);
      ChangedTree(m, a, plan);
      ChangedFacts(m, a, plan);
      CarriedFacts(m, a, t.dirs, plan);
    }
  }

  /** After an upgrade the new release is in use, on a database of its schema, and the site is
      up. What was made by this run is whole and checked; what was there already was taken as it
      was. */
  lemma UpgradedIsInstalled(s: State, e: End, t: Trace, a: Request, plan: Plan)
    requires IsRun(s, e, t, a, plan) && e.exit.Upgraded?
    ensures e.state.env == a.id && e.state.db.schema == Some(a.id) && e.state.online && !e.state.maintenance
    ensures a.id in e.state.releases && e.state.releases[a.id] == Finished(s.releases, a)
    ensures s.record.Intact? && e.state.record == Intact(s.record.entries + [Record("upgrade", a.id)])
    ensures Copied(s.deploy, e.state.deploy, a.id, a.items, plan) && Goes(plan, HealthCheck)
    ensures Installed(e.state) <==> !(TakenAsIs(s.releases, a) && s.releases[a.id].env.Partial?)
    ensures e.state.releases[a.id].checked <==> (TakenAsIs(s.releases, a) ==> s.releases[a.id].checked)
    ensures e.state.releases[a.id].assets.WholeAssets? <==> !(a.id in s.releases && s.releases[a.id].assets.TornAssets?)
  {
    RunStart(s, e, t, a, plan);
    var m := Mid(s, a, t, plan);
    ChangedFacts(m, a, plan);
    CarriedFacts(m, a, t.dirs, plan);
    RecordedFacts(Changed(m, a, plan).state, a.id, plan);
    PruneOfRun(s, e, t, a, plan, a.id);
  }

  /** After an upgrade a release is there as it was when fewer than two others are as new, and
      only when it is the new one, fewer than two are newer, or its removal failed. */
  lemma WhatIsPruned(s: State, e: End, t: Trace, a: Request, plan: Plan, r: Id)
    requires IsRun(s, e, t, a, plan) && e.exit.Upgraded? && r in s.releases && r != a.id
    ensures var mtimes := Times(s.releases)[a.id := a.now];
            && (|NotOlder(mtimes, r)| < 2 ==> r in e.state.releases && e.state.releases[r] == s.releases[r])
            && (r in e.state.releases ==> |Newer(mtimes, r)| < 2 || !Goes(plan, RemoveRelease(r)))
  {
    PruneOfRun(s, e, t, a, plan, r);
    HowItEnds(s, e, t, a, plan);
    MetAll(Rest(t.dirs, 2));
    PrunedWhen(t.dirs, s.releases, e.state.releases, a, plan, r);
  }

  lemma PrunedWhen(dirs: seq<Id>, releases: map<Id, Release>, after: map<Id, Release>, a: Request, plan: Plan, r: Id)
    requires r in releases && r != a.id
    requires var before := releases[a.id := Finished(releases, a)];
             Listing(dirs, before.Keys, Ages(Times(before))) && PrunedTo(before, after, r, r in Rest(dirs, 2), a.now, plan)
    ensures var mtimes := Times(releases)[a.id := a.now];
            && (|NotOlder(mtimes, r)| < 2 ==> r in after && after[r] == releases[r])
            && (r in after ==> |Newer(mtimes, r)| < 2 || !Goes(plan, RemoveRelease(r)))
  {
    var before := releases[a.id := Finished(releases, a)];
    assert Times(before) == Times(releases)[a.id := a.now];
    KeptExactly(dirs, Times(before), 2, a.id, r);
    KeptNotRest(dirs, 2, a.id, r);
  }

  // ---- the release in use

  /** The link names the old or the new release. The old one is as it was, the new one whole
      exactly when it was not taken half removed. */
  lemma LinkIsWhole(s: State, e: End, t: Trace, a: Request, plan: Plan)
    requires IsRun(s, e, t, a, plan) && a.id != s.env && s.env in s.releases
    ensures e.state.env == s.env || e.state.env == a.id
    ensures e.state.env == s.env ==> s.env in e.state.releases && e.state.releases[s.env] == s.releases[s.env]
    ensures e.state.env == a.id ==>
              a.id in e.state.releases && e.state.releases[a.id] == Finished(s.releases, a)
              && (Whole(e.state, a.id) <==> !(TakenAsIs(s.releases, a) && s.releases[a.id].env.Partial?))
  {
    RunStart(s, e, t, a, plan);
    if WentOn(s, a, t, plan) {
      var m := Mid(s, a, t, plan);
      ChangedFacts(m, a, plan);
      CarriedFacts(m, a, t.dirs, plan);
      if e.exit.Upgraded? || (e.at.Some? && e.at.value.RemoveRelease?) {
        PruneOfRun(s, e, t, a, plan, a.id);
      }
    }
  }

  lemma NothingToDoKeeps(s: State, e: End, t: Trace, a: Request, plan: Plan)
    requires IsRun(s, e, t, a, plan) && NothingToDo(s, a)
    ensures OnlyBackups(s, e.state)
  {
    RunStart(s, e, t, a, plan);
  }

  /** The release in use is there, even when it is itself reinstalled. */
  lemma LinkIsThere(s: State, e: End, t: Trace, a: Request, plan: Plan)
    requires IsRun(s, e, t, a, plan) && s.env in s.releases
    ensures e.state.env in e.state.releases
    ensures e.exit.Failed? ==> s.env in e.state.releases
  {
    RunStart(s, e, t, a, plan);
    if WentOn(s, a, t, plan) {
      var m := Mid(s, a, t, plan);
      ChangedFacts(m, a, plan);
      CarriedFacts(m, a, t.dirs, plan);
      if e.exit.Upgraded? || (e.at.Some? && e.at.value.RemoveRelease?) {
        PruneOfRun(s, e, t, a, plan, a.id);
      }
    }
  }

  /** A run of the upgrade, with the rollback carried out if it fails, or not. */
  datatype Link = Link(a: Request, t: Trace, plan: Plan, back: Option<Plan>)

  function EndOf(s: State, l: Link): End { Ran(s, l.a, l.t, l.plan) }

  function After(s: State, l: Link): State {
    var e := EndOf(s, l);
    if e.exit.Failed? && l.back.Some? then RolledBack(e.state, s.env, l.a.name, l.back.value).0 else e.state
  }

  function AfterAll(s: State, links: seq<Link>): State
    decreases |links|
  {
    if links == [] then s else AfterAll(After(s, links[0]), links[1..])
  }

  /** Every link is a run from where the one before left off. */
  ghost predicate Runs(s: State, links: seq<Link>)
    decreases |links|
  {
    links != [] ==>
      var l := links[0];
      IsRun(s, EndOf(s, l), l.t, l.a, l.plan) && Runs(After(s, l), links[1..])
  }

  lemma RolledBackKeeps(s: State, previous: Id, name: int, plan: Plan)
    ensures var (r, back) := RolledBack(s, previous, name, plan);
            r == s.(env := previous, online := true, db := r.db, maintenance := r.maintenance)
  {
  }

  /** Over any sequence of upgrades and rollbacks, wherever they end, the release in use is never
      removed. */
  lemma {:induction false} NeverRemoved(s: State, links: seq<Link>)
    requires Runs(s, links) && s.env in s.releases
    ensures var end := AfterAll(s, links); end.env in end.releases
    decreases |links|
  {
    if links != [] {
      var l := links[0];
      LinkIsThere(s, EndOf(s, l), l.t, l.a, l.plan);
      if l.back.Some? { RolledBackKeeps(EndOf(s, l).state, s.env, l.a.name, l.back.value); }
      NeverRemoved(After(s, l), links[1..]);
    }
  }

  /** No release in use is reinstalled in place, and no removal leaves a marker behind. */
  ghost predicate Careful(s: State, links: seq<Link>)
    decreases |links|
  {
    links != [] ==>
      var l := links[0];
      (l.a.id != s.env || !l.a.force) && Tidy(l.plan) && Careful(After(s, l), links[1..])
  }

  predicate Steady(s: State) { Whole(s, s.env) && Sound(s.releases) }

  lemma RunSound(s: State, e: End, t: Trace, a: Request, plan: Plan)
    requires IsRun(s, e, t, a, plan) && Sound(s.releases) && Tidy(plan)
    ensures Sound(e.state.releases)
  {
    RunStart(s, e, t, a, plan);
    if WentOn(s, a, t, plan) {
      var m := Mid(s, a, t, plan);
      ChangedSound(m, a, plan);
      ConcludedSound(Changed(m, a, plan).state, a, t.dirs, plan);
    }
  }

  lemma LinkSteady(s: State, l: Link)
    requires Steady(s) && IsRun(s, EndOf(s, l), l.t, l.a, l.plan)
    requires (l.a.id != s.env || !l.a.force) && Tidy(l.plan)
    ensures Steady(After(s, l))
  {
    var e := EndOf(s, l);
    RunSound(s, e, l.t, l.a, l.plan);
    if NothingToDo(s, l.a) {
      NothingToDoKeeps(s, e, l.t, l.a, l.plan);
    } else {
      LinkIsWhole(s, e, l.t, l.a, l.plan);
    }
    if e.exit.Failed? && l.back.Some? {
      WayBackIntact(s, e, l.t, l.a, l.plan);
      HowItEnds(s, e, l.t, l.a, l.plan);
      NothingBeforeBackup(s, e, l.t, l.a, l.plan);
      RolledBackKeeps(e.state, s.env, l.a.name, l.back.value);
    }
  }

  /** And with that care it is always whole. */
  lemma {:induction false} AlwaysWhole(s: State, links: seq<Link>)
    requires Runs(s, links) && Careful(s, links) && Steady(s)
    ensures Steady(AfterAll(s, links))
    decreases |links|
  {
    if links != [] {
      LinkSteady(s, links[0]);
      AlwaysWhole(After(s, links[0]), links[1..]);
    }
  }

  // ---- the rollback

  /** The upgrade ended before its migration had changed anything. */
  predicate NotMigrated(at: Step) { UpToSwitch(at) || at.WriteConfig? || at.BeginMigrate? }

  /** What the printed rollback brings back. */
  lemma RestoreOutcome(s: State, previous: Id, name: int, plan: Plan)
    ensures var (r, back) := RolledBack(s, previous, name, plan);
            && r == s.(env := previous, online := true, db := r.db, maintenance := r.maintenance)
            && (Restores(s, name, plan) ==> r.db == Migrate(s.backups[name].taken.db, previous) && !r.maintenance)
            && (Drops(s, name, plan) && !Restores(s, name, plan) ==> r.db.schema == None && r.maintenance)
            && (!Drops(s, name, plan) ==> r.db == s.db && (r.maintenance != s.maintenance ==> back.NotBegun?))
            && (back.Restored? <==> Restores(s, name, plan))
            && (back.Restored? ==> (back.proved <==> WholeItem(s.deploy, HEALTH) && Goes(plan, FinishRestore)))
  {
  }

  /** A failed upgrade to another release, and the rollback that it prints. Link, record and the
      old release are back whatever else. The old release is installed again exactly when the
      restore went through, or it did not come to dropping a database that the upgrade had not
      begun to migrate; the database is the one dumped exactly when it was restored, or left alone
      and unchanged. */
  lemma RollbackExactly(s: State, e: End, t: Trace, a: Request, plan: Plan, way: Plan)
    requires IsRun(s, e, t, a, plan) && e.exit.Failed? && Installed(s) && a.id != s.env
    ensures var r, dump := RolledBack(e.state, s.env, a.name, way).0, DumpOf(s, a, plan);
            && r.env == s.env && r.online && r.record == s.record && Whole(r, s.env)
            && (Installed(r) <==> Restores(e.state, a.name, way)
                                  || (!Drops(e.state, a.name, way) && NotMigrated(e.at.value)))
            && (r.db == dump <==> Restores(e.state, a.name, way) || (!Drops(e.state, a.name, way) && e.state.db == dump))
    ensures CanRestore(e.state, a.name) <==>
              && WholeItem(e.state.deploy, RESTORE) && WholeItem(e.state.deploy, KIT)
              && Survives(s.backups, a.name, a.written, a.cutoff) && s.superuser
  {
    OldOneLeft(s, e, t, a, plan);
    DumpLeft(s, e, t, a, plan);
    BackTo(s, e, a, DumpOf(s, a, plan), way);
    SuperuserKept(s, e, t, a, plan);
  }

  lemma SuperuserKept(s: State, e: End, t: Trace, a: Request, plan: Plan)
    requires IsRun(s, e, t, a, plan) && e.exit.Failed?
    ensures e.state.superuser == s.superuser && e.state.record == s.record
  {
    FailedWhere(s, e, t, a, plan);
  }

  /** Of a failed run: the old release, and whether its schema is still that of the database. */
  lemma OldOneLeft(s: State, e: End, t: Trace, a: Request, plan: Plan)
    requires IsRun(s, e, t, a, plan) && e.exit.Failed? && Installed(s) && a.id != s.env
    ensures e.at.Some? && Whole(e.state, s.env)
    ensures e.state.db.schema == Some(s.env) <==> NotMigrated(e.at.value)
  {
    FailedWhere(s, e, t, a, plan);
    HowItEnds(s, e, t, a, plan);
  }

  /** The dump of a failed run: there, and readable, exactly when it outlived its prune. */
  lemma DumpLeft(s: State, e: End, t: Trace, a: Request, plan: Plan)
    requires IsRun(s, e, t, a, plan) && e.exit.Failed?
    ensures DumpOf(s, a, plan).schema == s.db.schema
    ensures a.name in e.state.backups <==> Survives(s.backups, a.name, a.written, a.cutoff)
    ensures a.name in e.state.backups ==> e.state.backups[a.name].taken == Saved(DumpOf(s, a, plan), true)
  {
    NothingBeforeBackup(s, e, t, a, plan);
    DumpComesFirst(s, e, t, a, plan);
  }

  lemma BackTo(s: State, e: End, a: Request, dump: Db, way: Plan)
    requires e.at.Some? && Whole(e.state, s.env) && dump.schema == Some(s.env)
    requires a.name in e.state.backups ==> e.state.backups[a.name].taken == Saved(dump, true)
    requires e.state.db.schema == Some(s.env) <==> NotMigrated(e.at.value)
    ensures var r := RolledBack(e.state, s.env, a.name, way).0;
            && r.env == s.env && r.online && r.record == e.state.record && Whole(r, s.env)
            && (Installed(r) <==> Restores(e.state, a.name, way)
                                  || (!Drops(e.state, a.name, way) && NotMigrated(e.at.value)))
            && (r.db == dump <==> Restores(e.state, a.name, way) || (!Drops(e.state, a.name, way) && e.state.db == dump))
  {
    RestoreOutcome(e.state, s.env, a.name, way);
  }

  /** The steps after its dump at which a failed run has let the application write. */
  function Lost(s: State, e: End, t: Trace, a: Request, plan: Plan): seq<Step> {
    (if s.online then AfterDump(Asked(s, plan), a, t.sets, plan) else []) + Online(Mid(s, a, t, plan), a, e.at)
  }

  /** What a restore loses of the application's: what it wrote at the steps that the run came to
      after its dump with services up; so nothing exactly when it wrote nothing at any of these. */
  lemma RestoreLoses(s: State, e: End, t: Trace, a: Request, plan: Plan, way: Plan)
    requires IsRun(s, e, t, a, plan) && e.exit.Failed? && Installed(s) && a.id != s.env && Restores(e.state, a.name, way)
    ensures var r := RolledBack(e.state, s.env, a.name, way).0;
            && OfApplication(e.state.db.data) == OfApplication(r.db.data) + Written(plan, Lost(s, e, t, a, plan))
            && (OfApplication(e.state.db.data) == OfApplication(r.db.data)
                <==> forall step :: step in Lost(s, e, t, a, plan) ==> plan(step).written == [])
  {
    RollbackExactly(s, e, t, a, plan, way);
    WrittenAfterDump(s, e, t, a, plan);
    NothingWritten(plan, Lost(s, e, t, a, plan));
  }

  lemma WrittenAfterDump(s: State, e: End, t: Trace, a: Request, plan: Plan)
    requires IsRun(s, e, t, a, plan) && e.exit.Failed?
    ensures OfApplication(e.state.db.data) == OfApplication(DumpOf(s, a, plan).data) + Written(plan, Lost(s, e, t, a, plan))
  {
    RunStart(s, e, t, a, plan);
    MidBackups(s, e, t, a, plan);
    var m := Mid(s, a, t, plan);
    ChangedDb(m, a, plan);
    CarriedFacts(m, a, t.dirs, plan);
    var first := if s.online then AfterDump(Asked(s, plan), a, t.sets, plan) else [];
    WrittenJoin(plan, first, Online(m, a, e.at));
    Assoc(OfApplication(DumpOf(s, a, plan).data), Written(plan, first), Written(plan, Online(m, a, e.at)));
  }

  // ---- runs that show the conditions are needed

  lemma OnlyEndsThere(e: End, plan: Plan, step: Step)
    requires Ends(e, plan, false, false) && OnlyFault(plan, step) && !e.exit.NoChange?
    requires UpToSwitch(step) || AfterSwitch(step)
    ensures e.exit.Upgraded? || (e.exit.Failed? && e.at == Some(step))
  {
    assert e.at.Some? ==> GoesBut(plan, step, e.at.value);
  }

  /** A run whose one fault is an error inside the upgrade fails there, if it does not get
      past it. */
  lemma FailsThere(s: State, e: End, t: Trace, a: Request, plan: Plan, step: Step)
    requires IsRun(s, e, t, a, plan) && a.id != s.env && a.name !in s.backups && s.record.Intact?
    requires OnlyFault(plan, step) && (UpToSwitch(step) || AfterSwitch(step))
    ensures e.exit.Upgraded? || (e.exit.Failed? && e.at == Some(step))
  {
    HowItEnds(s, e, t, a, plan);
    NothingBeforeBackup(s, e, t, a, plan);
    OnlyEndsThere(e, plan, step);
  }

  lemma FailsAtHealthCheck(s: State, e: End, t: Trace, a: Request, plan: Plan)
    requires IsRun(s, e, t, a, plan) && a.id != s.env && a.name !in s.backups && s.record.Intact? && OnlyFault(plan, HealthCheck)
    ensures e.exit.Failed? && e.at == Some(HealthCheck)
  {
    FailsThere(s, e, t, a, plan, HealthCheck);
    if e.exit.Upgraded? { UpgradedIsInstalled(s, e, t, a, plan); }
  }

  /** A torn item is the only one that is not whole. */
  lemma OthersWhole(before: map<string, Part>, after: map<string, Part>, id: Id, torn: string, item: string)
    requires Replaced(before, after, id) && torn in after && after[torn].Broken? && WholeItem(before, torn)
    requires item != torn && WholeItem(before, item)
    ensures WholeItem(after, item)
  {
    var other :| Torn(before, after, id, other);
    assert other == Some(torn);
  }

  lemma FailsAtCopy(s: State, e: End, t: Trace, a: Request, plan: Plan, item: string)
    requires IsRun(s, e, t, a, plan) && a.id != s.env && a.name !in s.backups && s.record.Intact?
    requires OnlyFault(plan, CopyItem(item)) && item in a.items
    ensures e.exit.Failed? && e.at == Some(CopyItem(item))
  {
    FailsThere(s, e, t, a, plan, CopyItem(item));
    if e.exit.Upgraded? { UpgradedIsInstalled(s, e, t, a, plan); }
  }

  /** A run that failed at the copy of an item: that item is torn, the others are whole, and so
      are the old release and its database. */
  lemma FailsTorn(s: State, e: End, t: Trace, a: Request, plan: Plan, other: string)
    requires IsRun(s, e, t, a, plan) && Installed(s) && a.id != s.env && e.exit.Failed? && e.at.Some? && e.at.value.CopyItem?
    requires WholeItem(s.deploy, e.at.value.item) && other != e.at.value.item && WholeItem(s.deploy, other)
    ensures e.state.maintenance && !WholeItem(e.state.deploy, e.at.value.item) && WholeItem(e.state.deploy, other)
    ensures Whole(e.state, s.env) && e.state.db.schema == Some(s.env)
  {
    FailedCopy(s, e, t, a, plan);
    OthersWhole(s.deploy, e.state.deploy, a.id, e.at.value.item, other);
  }

  lemma FailedCopy(s: State, e: End, t: Trace, a: Request, plan: Plan)
    requires IsRun(s, e, t, a, plan) && e.exit.Failed? && e.at.Some? && e.at.value.CopyItem?
    ensures e.state.maintenance && TornAt(e.at, e.state.deploy) && Replaced(s.deploy, e.state.deploy, a.id)
    ensures OthersKept(s.releases, e.state.releases, a.id) && e.state.db.schema == s.db.schema
  {
    RunStart(s, e, t, a, plan);
    var m := Mid(s, a, t, plan);
    ChangedFacts(m, a, plan);
    ChangedTree(m, a, plan);
    CarriedFacts(m, a, t.dirs, plan);
  }

  lemma OnlyCopyFails(s: State, e: End, t: Trace, a: Request, plan: Plan, item: string, other: string)
    requires IsRun(s, e, t, a, plan) && Installed(s) && a.id != s.env && a.name !in s.backups && s.record.Intact?
    requires OnlyFault(plan, CopyItem(item)) && item in a.items
    requires WholeItem(s.deploy, item) && other != item && WholeItem(s.deploy, other)
    ensures e.exit.Failed? && e.at == Some(CopyItem(item))
    ensures e.state.maintenance && !WholeItem(e.state.deploy, item) && WholeItem(e.state.deploy, other)
    ensures Whole(e.state, s.env) && e.state.db.schema == Some(s.env)
  {
    FailsAtCopy(s, e, t, a, plan, item);
    FailsTorn(s, e, t, a, plan, other);
  }

  /** When that item is kit.py, restore.sh stays whole and the printed rollback cannot run all the
      same. The site stays in maintenance, with the old release and its database untouched. */
  lemma TornKit(s: State, e: End, t: Trace, a: Request, plan: Plan, way: Plan)
    requires IsRun(s, e, t, a, plan) && Installed(s) && a.id != s.env && a.name !in s.backups && s.record.Intact?
    requires OnlyFault(plan, CopyItem(KIT)) && KIT in a.items && WholeItem(s.deploy, RESTORE) && WholeItem(s.deploy, KIT)
    ensures e.exit.Failed? && e.at == Some(CopyItem(KIT)) && WholeItem(e.state.deploy, RESTORE) && !WholeItem(e.state.deploy, KIT)
    ensures var (r, back) := RolledBack(e.state, s.env, a.name, way); back == NoScript && Installed(r) && r.maintenance
  {
    OnlyCopyFails(s, e, t, a, plan, KIT, RESTORE);
    NoKit(e.state, s.env, a.name, way);
  }

  lemma NoKit(s: State, previous: Id, name: int, plan: Plan)
    requires !WholeItem(s.deploy, KIT) && Whole(s, previous) && s.db.schema == Some(previous)
    ensures var (r, back) := RolledBack(s, previous, name, plan);
            back == NoScript && Installed(r) && r.maintenance == s.maintenance
  {
  }

  /** With a provisioned database a failure of the health check leaves the old link over the
      migrated database: the restore is refused. */
  lemma ProvisionedStaysMigrated(s: State, e: End, t: Trace, a: Request, plan: Plan, way: Plan)
    requires IsRun(s, e, t, a, plan) && Installed(s) && a.id != s.env && a.name !in s.backups && s.record.Intact?
    requires OnlyFault(plan, HealthCheck) && !s.superuser
    ensures e.exit.Failed? && e.at == Some(HealthCheck)
    ensures var (r, back) := RolledBack(e.state, s.env, a.name, way);
            !back.Restored? && r.env == s.env && r.db.schema == Some(a.id) && !Installed(r)
  {
    FailsAtHealthCheck(s, e, t, a, plan);
    FailedWhere(s, e, t, a, plan);
    RestoreOutcome(e.state, s.env, a.name, way);
  }

  /** An upgrade that failed after its switch, tried again without `--force`: there is nothing to
      do. The release is installed all the same exactly when the database has come to its schema
      and its environment was not taken half removed. */
  lemma RetryDoesNothing(s: State, e: End, t: Trace, a: Request, plan: Plan, second: End, u: Trace, b: Request, next: Plan)
    requires IsRun(s, e, t, a, plan) && e.exit.Failed? && AfterSwitch(e.at.value)
    requires IsRun(e.state, second, u, b, next) && b.id == a.id && !b.force && Goes(next, Preflight)
    ensures second.exit.NoChange? && second.state == Asked(e.state, next)
    ensures Installed(second.state) <==> SchemaAt(e.at, s.db.schema, a.id) == Some(a.id) && Finished(s.releases, a).env.Ready?
  {
    FailedWhere(s, e, t, a, plan);
    FinishedParts(s.releases, a);
    NothingBeforeBackup(e.state, second, u, b, next);
    ReachedFacts(e.state, Preflight, next);
  }

  /** Once the history is truncated no upgrade comes to its end: each one that goes through the
      block stops when it reads the history, and prunes nothing. */
  lemma TruncatedStays(s: State, e: End, t: Trace, a: Request, plan: Plan)
    requires IsRun(s, e, t, a, plan) && s.record.Truncated?
    ensures !e.exit.Upgraded? && e.state.record == Truncated && OthersKept(s.releases, e.state.releases, a.id)
    ensures WentOn(s, a, t, plan) && Changed(Mid(s, a, t, plan), a, plan).at.None? ==>
              e.exit.Stopped? && e.at == Some(OpenRecord) && e.state.env == a.id
  {
    RunStart(s, e, t, a, plan);
    if WentOn(s, a, t, plan) {
      var m := Mid(s, a, t, plan);
      ChangedFacts(m, a, plan);
      CarriedFacts(m, a, t.dirs, plan);
      RecordedFacts(Changed(m, a, plan).state, a.id, plan);
    }
  }

  /** A run cut off while it writes the history truncates it. */
  lemma CutInRecord(s: State, e: End, t: Trace, a: Request, plan: Plan)
    requires IsRun(s, e, t, a, plan) && e.at.Some? && e.at.value.WriteRecord?
    ensures e.exit.Stopped? && e.state.record == Truncated && e.state.env == a.id && e.state.db.schema == Some(a.id)
  {
    RunStart(s, e, t, a, plan);
    var m := Mid(s, a, t, plan);
    ChangedFacts(m, a, plan);
    CarriedFacts(m, a, t.dirs, plan);
    RecordedFacts(Changed(m, a, plan).state, a.id, plan);
  }

  /** Assets caught half copied are taken as they are by every later run that comes past its
      switch, forced or not. */
  lemma RetryKeepsTornAssets(s: State, e: End, t: Trace, a: Request, plan: Plan, second: End, u: Trace, b: Request, next: Plan)
    requires IsRun(s, e, t, a, plan) && e.at == Some(CopyAssets)
    requires IsRun(e.state, second, u, b, next) && b.id == a.id
    requires second.exit.Upgraded? || (second.exit.Failed? && AfterSwitch(second.at.value))
    ensures a.id in e.state.releases && e.state.releases[a.id].assets.TornAssets?
    ensures second.state.env == a.id && a.id in second.state.releases && second.state.releases[a.id].assets.TornAssets?
  {
    TornAssetsLeft(s, e, t, a, plan);
    FinishedParts(e.state.releases, b);
    if second.exit.Upgraded? {
      UpgradedIsInstalled(e.state, second, u, b, next);
    } else {
      FailedWhere(e.state, second, u, b, next);
    }
  }

  lemma TornAssetsLeft(s: State, e: End, t: Trace, a: Request, plan: Plan)
    requires IsRun(s, e, t, a, plan) && e.at == Some(CopyAssets)
    ensures a.id in e.state.releases && e.state.releases[a.id].assets.TornAssets?
  {
    RunStart(s, e, t, a, plan);
    var m := Mid(s, a, t, plan);
    ChangedFacts(m, a, plan);
    CarriedFacts(m, a, t.dirs, plan);
  }

  lemma TwoNewer(mtimes: map<Id, int>, r: Id, x: Id, y: Id)
    requires r in mtimes && x in mtimes && y in mtimes && x != y && mtimes[r] < mtimes[x] && mtimes[r] < mtimes[y]
    ensures |Newer(mtimes, r)| >= 2
  {
    SubsetSize({x, y}, Newer(mtimes, r));
  }

  /** An upgrade removes every release than which the new one and some other are newer: the one
      that was running too, when a failed attempt has left a newer directory. The release
      upgraded to may have had a directory of any age. */
  lemma NewerPairPrunes(s: State, e: End, t: Trace, a: Request, plan: Plan, r: Id, other: Id)
    requires IsRun(s, e, t, a, plan) && e.exit.Upgraded? && Goes(plan, RemoveRelease(r))
    requires r in s.releases && other in s.releases && r != other && r != a.id && other != a.id
    requires s.releases[r].mtime < s.releases[other].mtime && s.releases[r].mtime < a.now
    ensures r !in e.state.releases
  {
    WhatIsPruned(s, e, t, a, plan, r);
    TwoNewer(Times(s.releases)[a.id := a.now], r, other, a.id);
  }

  /** A failed upgrade to one release, rolled back, and then an upgrade to a third: the release
      that was running all the time is removed, and with it the way back that the last upgrade
      prints. */
  lemma RunningReleasePruned(s: State, e: End, t: Trace, a: Request, plan: Plan, way: Plan,
                             second: End, u: Trace, b: Request, next: Plan)
    requires IsRun(s, e, t, a, plan) && e.exit.Failed? && AfterSwitch(e.at.value) && s.env in s.releases
    requires s.env != a.id && b.id != s.env && b.id != a.id
    requires s.releases[s.env].mtime < a.now && s.releases[s.env].mtime < b.now && Goes(next, RemoveRelease(s.env))
    requires IsRun(RolledBack(e.state, s.env, a.name, way).0, second, u, b, next) && second.exit.Upgraded?
    ensures s.env !in second.state.releases
  {
    FailedWhere(s, e, t, a, plan);
    FinishedParts(s.releases, a);
    RolledBackKeeps(e.state, s.env, a.name, way);
    NewerPairPrunes(RolledBack(e.state, s.env, a.name, way).0, second, u, b, next, s.env, a.id);
  }

  lemma BackupNames(s: State, e: End, t: Trace, a: Request, plan: Plan, name: int)
    requires IsRun(s, e, t, a, plan) && name !in s.backups && name != a.name
    ensures name !in e.state.backups
  {
    RunStart(s, e, t, a, plan);
    if WentOn(s, a, t, plan) {
      var m := Mid(s, a, t, plan);
      ReachedFacts(s, Preflight, plan);
      BackedUpFacts(Asked(s, plan), a, t.sets, plan);
      ChangedFacts(m, a, plan);
      CarriedFacts(m, a, t.dirs, plan);
    }
  }

  lemma GoingEnds(e: End, plan: Plan)
    requires Ends(e, plan, false, false) && AllGo(plan) && !e.exit.NoChange?
    ensures e.exit.Upgraded?
  {
    assert e.at.Some? ==> Goes(plan, e.at.value);
  }

  lemma GoingUpgrades(s: State, e: End, t: Trace, a: Request, plan: Plan)
    requires IsRun(s, e, t, a, plan) && AllGo(plan) && a.name !in s.backups && !NothingToDo(s, a) && s.record.Intact?
    ensures e.exit.Upgraded?
  {
    HowItEnds(s, e, t, a, plan);
    NothingBeforeBackup(s, e, t, a, plan);
    GoingEnds(e, plan);
  }

  /** The same on an installation: such runs there are. */
  method LoseTheRunningRelease(h: LifecycleHost.Host, a: Request, plan: Plan, b: Request, next: Plan)
    requires Installed(h.Now()) && h.record.Intact? && a.name !in h.backups && b.name !in h.backups && b.name != a.name
    requires h.env != a.id && b.id != h.env && b.id != a.id
    requires h.releases[h.env].mtime < a.now && h.releases[h.env].mtime < b.now
    requires OnlyFault(plan, HealthCheck) && AllGo(next)
    modifies h
    ensures h.env == b.id && old(h.env) !in h.releases
  {
    ghost var s := h.Now();
    var e, back;
    ghost var t;
    e, back, t := h.UpgradeOrRollBack(a, plan);
    FailsAtHealthCheck(s, e, t, a, plan);
    ghost var r := h.Now();
    BackupNames(s, e, t, a, plan, b.name);
    RolledBackKeeps(e.state, s.env, a.name, plan);
    FailedWhere(s, e, t, a, plan);
    var exit, at;
    ghost var u;
    exit, at, u := h.Upgrade(b, next);
    GoingUpgrades(r, End(h.Now(), exit, at), u, b, next);
    UpgradedIsInstalled(r, End(h.Now(), exit, at), u, b, next);
    RunningReleasePruned(s, e, t, a, plan, plan, End(h.Now(), exit, at), u, b, next);
  }

  /** The same with one run: a release that was left over, upgraded to while a newer failed
      attempt stands beside it, pushes out the one that was running. */
  method LoseItToALeftover(h: LifecycleHost.Host, a: Request, plan: Plan, failed: Id)
    requires Installed(h.Now()) && h.record.Intact? && a.name !in h.backups && a.id != h.env && a.id in h.releases
    requires failed in h.releases && failed != h.env && failed != a.id
    requires h.releases[a.id].mtime < h.releases[h.env].mtime < h.releases[failed].mtime < a.now && AllGo(plan)
    modifies h
    ensures h.env == a.id && old(h.env) !in h.releases
  {
    ghost var s := h.Now();
    var exit, at;
    ghost var t;
    exit, at, t := h.Upgrade(a, plan);
    GoingUpgrades(s, End(h.Now(), exit, at), t, a, plan);
    UpgradedIsInstalled(s, End(h.Now(), exit, at), t, a, plan);
    NewerPairPrunes(s, End(h.Now(), exit, at), t, a, plan, s.env, failed);
  }

  /** An environment that failed the check of its log is marked complete, and the next attempt
      takes it unchecked. */
  lemma RetrySkipsTheCheck(s: State, id: Id, now: int, later: int, plan: Plan, next: Plan)
    requires id in s.releases && !Marked(s.releases[id].env) && OnlyFault(plan, CheckLog) && Goes(next, FindPython)
    ensures var first := EnvInstalled(s, id, false, now, plan);
            && first.at == Some(CheckLog) && Whole(first.state, id)
            && var second := EnvInstalled(first.state, id, false, later, next);
               second.at.None? && Whole(second.state, id) && !second.state.releases[id].checked
  {
    FailsTheCheck(s, id, now, plan);
    TakenAgain(EnvInstalled(s, id, false, now, plan).state, id, later, next);
  }

  lemma FailsTheCheck(s: State, id: Id, now: int, plan: Plan)
    requires id in s.releases && !Marked(s.releases[id].env) && OnlyFault(plan, CheckLog)
    ensures var o := EnvInstalled(s, id, false, now, plan);
            o.at == Some(CheckLog) && Whole(o.state, id) && !o.state.releases[id].checked
  {
    assert GoesBut(plan, CheckLog, FindPython);
    ReachedFacts(s, FindPython, plan);
    EndsAtCheck(Reached(s, FindPython, plan).state, id, now, plan);
    EnvInstalledRelease(s, id, false, now, plan);
  }

  lemma EndsAtCheck(s: State, id: Id, now: int, plan: Plan)
    requires id in s.releases && OnlyFault(plan, CheckLog)
    ensures EnvBuilt(s, id, now, plan).at == Some(CheckLog)
  {
    assert GoesBut(plan, CheckLog, RemoveEnv) && GoesBut(plan, CheckLog, FillEnv);
    ReachedFacts(s, RemoveEnv, plan);
  }

  lemma TakenAgain(s: State, id: Id, now: int, plan: Plan)
    requires id in s.releases && Marked(s.releases[id].env) && Goes(plan, FindPython)
    ensures var o := EnvInstalled(s, id, false, now, plan); o.at.None? && o.state.releases == s.releases
  {
    EnvInstalledRelease(s, id, false, now, plan);
  }

  /** An environment whose removal broke off before it came to the marker is taken as it is. */
  lemma HalfRemovedIsTaken(s: State, id: Id, now: int, later: int, plan: Plan, next: Plan)
    requires id in s.releases && s.releases[id].env.Ready? && Goes(plan, FindPython) && !Goes(plan, RemoveEnv)
    requires plan(RemoveEnv).left.body.InPieces? && plan(RemoveEnv).left.marker && Goes(next, FindPython)
    ensures var first := EnvInstalled(s, id, true, now, plan);
            && first.at == Some(RemoveEnv) && !Whole(first.state, id)
            && var second := EnvInstalled(first.state, id, false, later, next); second.at.None? && !Whole(second.state, id)
  {
    EnvInstalledRelease(s, id, true, now, plan);
    TakenAgain(EnvInstalled(s, id, true, now, plan).state, id, later, next);
  }

  /** A forced reinstallation of the release in use that breaks off while its environment is built
      leaves the link on what is not whole; the rollback that it prints names the same release. */
  lemma ReinstallInPlace(s: State, e: End, t: Trace, a: Request, plan: Plan, way: Plan)
    requires IsRun(s, e, t, a, plan) && a.id == s.env && e.at == Some(FillEnv)
    ensures e.state.env == s.env && !Whole(e.state, s.env)
    ensures var r := RolledBack(e.state, s.env, a.name, way).0; !Whole(r, r.env)
  {
    RunStart(s, e, t, a, plan);
    var m := Mid(s, a, t, plan);
    ChangedFacts(m, a, plan);
    CarriedFacts(m, a, t.dirs, plan);
    RolledBackKeeps(e.state, s.env, a.name, way);
  }

  /** A run cut off while it writes the manifest leaves a set that counts and cannot be read. */
  lemma CutInManifest(s: State, e: End, t: Trace, a: Request, plan: Plan)
    requires IsRun(s, e, t, a, plan) && e.at == Some(WriteManifest) && a.name !in s.backups
    ensures a.name in Sets(e.state.backups) && !e.state.backups[a.name].taken.readable
    ensures forall other :: other in s.backups ==> other in e.state.backups && e.state.backups[other] == s.backups[other]
    ensures !CanRestore(e.state, a.name)
  {
    RunStart(s, e, t, a, plan);
    if WentOn(s, a, t, plan) {
      var m := Mid(s, a, t, plan);
      ChangedFacts(m, a, plan);
      CarriedFacts(m, a, t.dirs, plan);
    } else {
      CutWritten(Asked(s, plan), a, t.sets, plan);
    }
  }

  lemma CutWritten(s: State, a: Request, sets: seq<int>, plan: Plan)
    requires BackedUp(s, a, sets, plan).at == Some(WriteManifest) && a.name !in s.backups
    ensures var after := BackedUp(s, a, sets, plan).state.backups;
            && a.name in Sets(after) && !after[a.name].taken.readable
            && forall other :: other in s.backups ==> other in after && after[other] == s.backups[other]
  {
    var d := Dumped(s, a, plan);
    DumpedFacts(s, a, plan);
    var w := SetWritten(d.state, a, plan);
    SetWrittenFacts(d.state, a, plan);
    if w.at.None? { SetsPrunedFacts(w.state, sets, a, plan); }
  }

  /** A set from which a restore is possible. */
  predicate Readable(backups: Backups, name: int) { name in Sets(backups) && backups[name].taken.readable }

  ghost predicate AnyReadable(backups: Backups) { exists name :: Readable(backups, name) }

  /** Whether a run that went on past its backup leaves a set that can be restored: it does when its
      own outlives the prune, and otherwise exactly when the newest there was before can be read, or
      another within retention. */
  lemma ReadableLeft(s: State, e: End, t: Trace, a: Request, plan: Plan)
    requires IsRun(s, e, t, a, plan) && WentOn(s, a, t, plan)
    ensures AnyReadable(e.state.backups)
       <==> Survives(s.backups, a.name, a.written, a.cutoff)
            || exists name :: Readable(s.backups, name) && (IsNewest(s.backups, name) || s.backups[name].mtime >= a.cutoff)
  {
    RunStart(s, e, t, a, plan);
    MidBackups(s, e, t, a, plan);
    var m := Mid(s, a, t, plan);
    ChangedFacts(m, a, plan);
    CarriedFacts(m, a, t.dirs, plan);
    PrunedReadable(s.backups, a, DumpOf(s, a, plan));
  }

  lemma PrunedReadable(backups: Backups, a: Request, db: Db)
    requires a.name !in backups
    ensures AnyReadable(Pruned(backups[a.name := SetOf(a, db)], a.cutoff))
       <==> Survives(backups, a.name, a.written, a.cutoff)
            || exists name :: Readable(backups, name) && (IsNewest(backups, name) || backups[name].mtime >= a.cutoff)
  {
    var all := backups[a.name := SetOf(a, db)];
    var after := Pruned(all, a.cutoff);
    NewSetKept(backups, a, db);
    assert Sets(all) == Sets(backups) + {a.name};
    if Survives(backups, a.name, a.written, a.cutoff) {
      assert Readable(after, a.name);
    } else {
      assert a.name !in after && forall name :: name in after ==> name in backups;
      forall name | name in backups
        ensures Readable(after, name) <==> Readable(backups, name) && (IsNewest(backups, name) || backups[name].mtime >= a.cutoff)
      {
        assert IsNewest(all, name) <==> IsNewest(backups, name);
      }
    }
  }
}
