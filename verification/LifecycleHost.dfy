/** deploy/kit.py, `cmd_upgrade`, `do_backup`, `prune_backups`, `prune_releases` and the rollback,
    as they work on the installation. */
module LifecycleHost {
  import opened Text
  import opened Retention
  import opened Lifecycle

  class Host {
    const superuser: bool
    var env: Id
    var releases: map<Id, Release>
    var deploy: map<string, Part>
    var db: Db
    var backups: Backups
    var record: History
    var online: bool
    var maintenance: bool

    constructor (s: State)
      ensures Now() == s
    {
      superuser, env, releases, deploy, db := s.superuser, s.env, s.releases, s.deploy, s.db;
      backups, record, online, maintenance := s.backups, s.record, s.online, s.maintenance;
    }

    function Now(): State
      reads this
    {
      State(superuser, env, releases, deploy, db, backups, record, online, maintenance)
    }

    /** The run comes to a step. */
    method Reach(step: Step, plan: Plan) returns (at: Option<Step>)
      modifies this`db
      ensures Outcome(Now(), at) == Reached(old(Now()), step, plan)
      ensures at == if Goes(plan, step) then None else Some(step)
    {
      if online {
        db := db.(data := db.data + Applied(plan(step).written));
      }
      at := if Goes(plan, step) then None else Some(step);
    }

    // ---- backup

    /** The directory and the dump. */
    method MakeDump(a: Request, plan: Plan) returns (at: Option<Step>)
      modifies this`db
      ensures Outcome(Now(), at) == Dumped(old(Now()), a, plan)
    {
      at := Reach(MakeBackup, plan);
      if at.Some? {
        return;
      }
      if a.name in backups {
        return Some(MakeBackup);
      }
      at := Reach(Dump, plan);
    }

    /** The manifest. */
    method KeepSet(a: Request, plan: Plan) returns (at: Option<Step>)
      modifies this`backups, this`db
      ensures Outcome(Now(), at) == SetWritten(old(Now()), a, plan)
    {
      var saved := Saved(db, true);
      backups := backups[a.name := BackupDir(false, a.written, saved)];
      at := Reach(OpenManifest, plan);
      if at.Some? {
        return;
      }
      backups := backups[a.name := BackupDir(true, a.written, saved.(readable := false))];
      at := Reach(WriteManifest, plan);
      if at.None? {
        backups := backups[a.name := BackupDir(true, a.written, saved)];
      }
    }

    method DropSet(name: int, now: int, plan: Plan) returns (at: Option<Step>)
      requires name in backups
      modifies this`backups, this`db
      ensures var o := Reached(old(Now()), RemoveSet(name), plan);
              && at == o.at
              && Now() == if at.None? then o.state.(backups := old(backups) - {name})
                          else SetBackup(o.state, name, SetLeft(old(backups)[name], plan(RemoveSet(name)).left, now))
    {
      at := Reach(RemoveSet(name), plan);
      if at.None? {
        backups := backups - {name};
      } else {
        backups := backups[name := SetLeft(backups[name], plan(RemoveSet(name)).left, now)];
      }
    }

    /** `prune_backups`: the sets in name order, all but the last checked against the cutoff. */
    method PruneBackups(a: Request, plan: Plan) returns (at: Option<Step>, ghost sets: seq<int>)
      modifies this`backups, this`db
      ensures ListsSets(sets, old(backups))
      ensures Outcome(Now(), at) == SetsPruned(old(Now()), sets, a, plan)
    {
      var listed := Sorted(Sets(backups), map name | name in Sets(backups) :: name);
      sets := listed;
      var i := 0;
      while i + 1 < |listed|
        invariant i <= |listed| && SetsPruned(Now(), listed[i..], a, plan) == SetsPruned(old(Now()), listed, a, plan)
      {
        assert listed[i..][0] == listed[i] && listed[i..][1..] == listed[i + 1..];
        if listed[i] in backups && backups[listed[i]].mtime < a.cutoff {
          at := DropSet(listed[i], a.now, plan);
          if at.Some? {
            return;
          }
        }
        i := i + 1;
      }
      at := None;
    }

    /** `do_backup`. */
    method DoBackup(a: Request, plan: Plan) returns (at: Option<Step>, ghost sets: seq<int>)
      modifies this`backups, this`db
      ensures Outcome(Now(), at) == BackedUp(old(Now()), a, sets, plan)
      ensures ListedSets(old(Now()), a, sets, plan)
    {
      sets := [];
      at := MakeDump(a, plan);
      if at.Some? {
        return;
      }
      at := KeepSet(a, plan);
      if at.Some? {
        return;
      }
      at, sets := PruneBackups(a, plan);
    }

    // ---- the new release

    method AddRelease(a: Request, plan: Plan) returns (at: Option<Step>)
      modifies this`releases, this`db
      ensures Outcome(Now(), at) == ReleaseAdded(old(Now()), a, plan)
    {
      at := Reach(MakeRelease, plan);
      if at.None? && a.id !in releases {
        releases := releases[a.id := Release(NoEnv, false, NoAssets, a.now)];
      }
    }

    /** `install_python_env`. */
    method InstallPythonEnv(id: Id, force: bool, now: int, plan: Plan) returns (at: Option<Step>)
      requires id in releases
      modifies this`releases, this`db
      ensures Outcome(Now(), at) == EnvInstalled(old(Now()), id, force, now, plan)
    {
      at := Reach(FindPython, plan);
      if at.Some? {
        return;
      }
      if Marked(releases[id].env) && !force {
        return None;
      }
      at := BuildEnv(id, now, plan);
    }

    method BuildEnv(id: Id, now: int, plan: Plan) returns (at: Option<Step>)
      requires id in releases
      modifies this`releases, this`db
      ensures Outcome(Now(), at) == EnvBuilt(old(Now()), id, now, plan)
    {
      at := Reach(RemoveEnv, plan);
      if at.Some? {
        releases := releases[id := EnvBroken(releases[id], plan(RemoveEnv).left, now)];
        return;
      }
      at := FillNewEnv(id, now, plan);
    }

    method FillNewEnv(id: Id, now: int, plan: Plan) returns (at: Option<Step>)
      requires id in releases
      modifies this`releases, this`db
      ensures Outcome(Now(), at) == EnvFilled(old(Now()), id, now, plan)
    {
      var r := releases[id];
      releases := releases[id := r.(env := Partial(false), checked := false, mtime := now)];
      at := Reach(FillEnv, plan);
      if at.Some? {
        return;
      }
      releases := releases[id := r.(env := Ready, checked := false, mtime := now)];
      at := Reach(CheckLog, plan);
      if at.None? {
        releases := releases[id := r.(env := Ready, checked := true, mtime := now)];
      }
    }

    method StopApplication(plan: Plan) returns (at: Option<Step>)
      modifies this`db, this`online, this`maintenance
      ensures Outcome(Now(), at) == Halted(old(Now()), plan)
    {
      at := Reach(BeginMaintenance, plan);
      if at.Some? {
        return;
      }
      maintenance := true;
      at := Reach(StopServices, plan);
      if at.None? {
        online := false;
      }
    }

    method Prepare(a: Request, plan: Plan) returns (at: Option<Step>)
      modifies this`releases, this`db, this`online, this`maintenance
      ensures Outcome(Now(), at) == Prepared(old(Now()), a, plan)
    {
      at := AddRelease(a, plan);
      if at.Some? {
        return;
      }
      at := InstallPythonEnv(a.id, a.force, a.now, plan);
      if at.Some? {
        return;
      }
      at := StopApplication(plan);
    }

    // ---- the kit

    /** `copy_kit`. */
    method CopyKit(a: Request, plan: Plan) returns (at: Option<Step>)
      requires a.id in releases
      modifies this`deploy, this`releases, this`db
      ensures Outcome(Now(), at) == KitCopied(old(Now()), a, plan)
    {
      at := ReplaceDocs(a.id, a.now, plan);
      if at.Some? {
        return;
      }
      at := CopyItems(a.id, a.items, plan);
      if at.Some? || a.id !in releases {
        return;
      }
      at := CopyAssetsOnce(a.id, a.now, plan);
    }

    method ReplaceDocs(id: Id, now: int, plan: Plan) returns (at: Option<Step>)
      requires id in releases
      modifies this`releases, this`db
      ensures Outcome(Now(), at) == DocsCopied(old(Now()), id, now, plan)
    {
      at := Reach(OpenDocs, plan);
      if at.Some? {
        return;
      }
      releases := releases[id := releases[id].(mtime := now)];
      at := Reach(CopyDocs, plan);
    }

    method CopyItems(id: Id, items: seq<string>, plan: Plan) returns (at: Option<Step>)
      modifies this`deploy, this`db
      ensures Outcome(Now(), at) == ItemsCopied(old(Now()), id, items, plan)
    {
      for i := 0 to |items|
        invariant ItemsCopied(Now(), id, items[i..], plan) == ItemsCopied(old(Now()), id, items, plan)
      {
        assert items[i..][0] == items[i] && items[i..][1..] == items[i + 1..];
        at := Reach(OpenItem(items[i]), plan);
        if at.Some? {
          return;
        }
        deploy := deploy[items[i] := Broken];
        at := Reach(CopyItem(items[i]), plan);
        if at.Some? {
          return;
        }
        deploy := deploy[items[i] := From(id)];
      }
      at := None;
    }

    method CopyAssetsOnce(id: Id, now: int, plan: Plan) returns (at: Option<Step>)
      requires id in releases
      modifies this`releases, this`db
      ensures Outcome(Now(), at) == AssetsKept(old(Now()), id, now, plan)
    {
      var r := releases[id];
      at := Reach(KeepAssets, plan);
      if at.Some? {
        return;
      }
      if r.assets.NoAssets? {
        releases := releases[id := r.(assets := TornAssets, mtime := now)];
        at := Reach(CopyAssets, plan);
        if at.Some? {
          return;
        }
        releases := releases[id := r.(assets := WholeAssets, mtime := now)];
      }
      at := Reach(KeepManifest, plan);
    }

    // ---- from the switch on

    /** The database is migrated and seeded. */
    method Move(id: Id, plan: Plan) returns (at: Option<Step>)
      modifies this`db
      ensures Outcome(Now(), at) == Moved(old(Now()), id, plan)
    {
      at := Reach(WriteConfig, plan);
      if at.Some? {
        return;
      }
      at := Reach(BeginMigrate, plan);
      if at.Some? {
        return;
      }
      at := Reach(RunMigrate, plan);
      if at.Some? {
        db := db.(schema := None);
        return;
      }
      db := db.(schema := Some(id));
      at := SeedSite(id, plan);
    }

    method SeedSite(id: Id, plan: Plan) returns (at: Option<Step>)
      modifies this`db
      ensures Outcome(Now(), at) == Seeded(old(Now()), id, plan)
    {
      at := Reach(ImportAssets, plan);
      if at.Some? {
        return;
      }
      db := db.(data := db.data + [BySeed(id)]);
      at := Reach(Seed, plan);
    }

    method ComeBack(plan: Plan) returns (at: Option<Step>)
      modifies this`db, this`online, this`maintenance
      ensures Outcome(Now(), at) == CameBack(old(Now()), plan)
    {
      at := Reach(EndMaintenance, plan);
      if at.Some? {
        return;
      }
      maintenance, online := false, true;
      at := Reach(StartServices, plan);
      if at.Some? {
        return;
      }
      at := Reach(HealthCheck, plan);
    }

    method Land(id: Id, plan: Plan) returns (at: Option<Step>)
      modifies this`env, this`db, this`online, this`maintenance
      ensures Outcome(Now(), at) == Landed(old(Now()), id, plan)
    {
      env := id;
      at := Move(id, plan);
      if at.Some? {
        return;
      }
      at := ComeBack(plan);
    }

    /** Steps 2 to 7, inside the source's `try`. */
    method Change(a: Request, plan: Plan) returns (at: Option<Step>)
      modifies this`releases, this`deploy, this`env, this`db, this`online, this`maintenance
      ensures Outcome(Now(), at) == Changed(old(Now()), a, plan)
    {
      at := Prepare(a, plan);
      if at.None? {
        at := SwitchOver(a, plan);
      }
    }

    /** From the copies on. */
    method SwitchOver(a: Request, plan: Plan) returns (at: Option<Step>)
      requires a.id in releases
      modifies this`releases, this`deploy, this`env, this`db, this`online, this`maintenance
      ensures Outcome(Now(), at) == Switched(old(Now()), a, plan)
    {
      at := CopyKit(a, plan);
      if at.Some? {
        return;
      }
      at := Reach(Switch, plan);
      if at.Some? {
        return;
      }
      at := Land(a.id, plan);
    }

    // ---- the end

    /** One removal of `prune_releases`, its errors ignored. */
    method DropRelease(id: Id, now: int, plan: Plan) returns (stopped: bool)
      requires id in releases
      modifies this`releases, this`db
      ensures stopped == plan(RemoveRelease(id)).fault.Stop? && Now() == Dropped(old(Now()), id, now, plan)
    {
      var at := Reach(RemoveRelease(id), plan);
      if at.None? {
        releases := releases - {id};
      } else {
        releases := releases[id := Remains(releases[id], plan(RemoveRelease(id)).left, now)];
      }
      stopped := plan(RemoveRelease(id)).fault.Stop?;
    }

    /** `prune_releases`: newest first, all after the first `keep` but the one in use. */
    method PruneReleases(keep: nat, now: int, plan: Plan) returns (at: Option<Step>, ghost dirs: seq<Id>)
      modifies this`releases, this`db
      ensures ListsReleases(dirs, old(releases))
      ensures Outcome(Now(), at) == ReleasesPruned(old(Now()), Rest(dirs, keep), now, plan)
    {
      var ages := Ages(Times(releases));
      assert releases.Keys == ages.Keys;
      var listed := Sorted(releases.Keys, ages);
      dirs := listed;
      var rest := if keep <= |listed| then listed[keep..] else [];
      for i := 0 to |rest|
        invariant ReleasesPruned(Now(), rest[i..], now, plan) == ReleasesPruned(old(Now()), rest, now, plan)
      {
        assert rest[i..][0] == rest[i] && rest[i..][1..] == rest[i + 1..];
        if rest[i] != env && rest[i] in releases {
          var stopped := DropRelease(rest[i], now, plan);
          if stopped {
            return Some(RemoveRelease(rest[i])), dirs;
          }
        }
      }
      at := None;
    }

    /** `record_release`. */
    method KeepRecord(id: Id, plan: Plan) returns (at: Option<Step>)
      modifies this`record, this`db
      ensures Outcome(Now(), at) == Recorded(old(Now()), id, plan)
    {
      var before := record;
      at := Reach(OpenRecord, plan);
      if at.Some? {
        return;
      }
      if before.Truncated? {
        return Some(OpenRecord);
      }
      record := Truncated;
      at := Reach(WriteRecord, plan);
      if at.None? {
        record := Intact(before.entries + [Record("upgrade", id)]);
      }
    }

    /** The record, and the prune of the releases. */
    method Conclude(a: Request, plan: Plan) returns (at: Option<Step>, ghost dirs: seq<Id>)
      modifies this`record, this`releases, this`db
      ensures Outcome(Now(), at) == Concluded(old(Now()), a, dirs, plan)
      ensures Recorded(old(Now()), a.id, plan).at.None? && Goes(plan, CleanUp) ==> ListsReleases(dirs, old(releases))
    {
      dirs := [];
      at := KeepRecord(a.id, plan);
      if at.Some? {
        return;
      }
      at := Reach(CleanUp, plan);
      if at.Some? {
        return;
      }
      at, dirs := PruneReleases(2, a.now, plan);
    }

    /** `cmd_upgrade` on an installed host. */
    method Upgrade(a: Request, plan: Plan) returns (exit: Exit, at: Option<Step>, ghost t: Trace)
      modifies this
      ensures IsRun(old(Now()), End(Now(), exit, at), t, a, plan)
    {
      t := Trace([], []);
      at := Reach(Preflight, plan);
      if at.Some? {
        return Cut(plan, at.value, Refused), at, t;
      }
      if a.id == env && !a.force {
        return NoChange, None, t;
      }
      exit, at, t := Pursue(a, plan);
    }

    /** From the backup on. */
    method Pursue(a: Request, plan: Plan) returns (exit: Exit, at: Option<Step>, ghost t: Trace)
      modifies this
      ensures End(Now(), exit, at) == Pursued(old(Now()), a, t, plan) && Listed(old(Now()), a, t, plan)
    {
      ghost var sets, dirs;
      at, sets := DoBackup(a, plan);
      t := Trace(sets, []);
      if at.Some? {
        return Cut(plan, at.value, Refused), at, t;
      }
      exit, at, dirs := Carry(a, plan);
      t := Trace(sets, dirs);
    }

    /** After the backup. */
    method Carry(a: Request, plan: Plan) returns (exit: Exit, at: Option<Step>, ghost dirs: seq<Id>)
      modifies this
      ensures End(Now(), exit, at) == Carried(old(Now()), a, dirs, plan) && ListedReleases(old(Now()), a, dirs, plan)
    {
      dirs := [];
      at := Change(a, plan);
      if at.Some? {
        return Cut(plan, at.value, Failed), at, dirs;
      }
      at, dirs := Conclude(a, plan);
      exit := if at.None? then Upgraded else Stopped;
    }

    /** The printed rollback, with `cmd_restore` behind the deploy tree's script. */
    method Rollback(previous: Id, name: int, plan: Plan) returns (back: Back)
      modifies this`env, this`db, this`online, this`maintenance
      ensures (Now(), back) == RolledBack(old(Now()), previous, name, plan)
    {
      online := false;
      env := previous;
      back := Restore(name, plan);
      online := true;
    }

    method Restore(name: int, plan: Plan) returns (back: Back)
      requires !online
      modifies this`db, this`maintenance
      ensures var r := RolledBack(old(Now()), env, name, plan); Now().(online := true) == r.0 && back == r.1
    {
      if !WholeItem(deploy, RESTORE) || !WholeItem(deploy, KIT) {
        return NoScript;
      }
      if name !in backups || !backups[name].taken.readable || !Goes(plan, CheckBackup) {
        return NoBackup;
      }
      if !superuser {
        return NotAllowed;
      }
      maintenance := true;
      if !Goes(plan, BeginRestore) {
        return NotBegun;
      }
      back := ReplaceDatabase(backups[name].taken.db, plan);
    }

    method ReplaceDatabase(saved: Db, plan: Plan) returns (back: Back)
      modifies this`db, this`maintenance
      ensures if !Goes(plan, LoadDump) then Now() == old(Now()).(db := Db([], None)) && back == Lost
              else if !Goes(plan, MigrateDump) then Now() == old(Now()).(db := saved.(schema := None)) && back == Lost
              else Now() == old(Now()).(db := Migrate(saved, env), maintenance := false)
                   && back == Restored(Goes(plan, FinishRestore) && WholeItem(deploy, HEALTH))
    {
      if !Goes(plan, LoadDump) {
        db := Db([], None);
        return Lost;
      }
      db := saved;
      if !Goes(plan, MigrateDump) {
        db := db.(schema := None);
        return Lost;
      }
      db := Migrate(db, env);
      maintenance := false;
      back := Restored(Goes(plan, FinishRestore) && WholeItem(deploy, HEALTH));
    }

    /** An upgrade, and when it fails the rollback that it prints. */
    method UpgradeOrRollBack(a: Request, plan: Plan) returns (e: End, back: Option<Back>, ghost t: Trace)
      modifies this
      ensures IsRun(old(Now()), e, t, a, plan)
      ensures if e.exit.Failed? then back.Some? && (Now(), back.value) == RolledBack(e.state, old(env), a.name, plan)
              else back.None? && Now() == e.state
    {
      var previous := env;
      var exit, at;
      exit, at, t := Upgrade(a, plan);
      e := End(Now(), exit, at);
      back := None;
      if exit.Failed? {
        var b := Rollback(previous, a.name, plan);
        back := Some(b);
      }
    }
  }
}
