/** deploy/kit.py, `cmd_upgrade`, `do_backup`, `cmd_restore` and what they call: an installation
    changed step by step, where every step may fail, the process may stop anywhere, and the
    application writes to the database whenever it runs. */
module Lifecycle {
  import opened Text
  import opened Retention

  type Id = string

  // ---- the steps and what may happen at them

  datatype Step =
    | Preflight | MakeBackup | Dump | OpenManifest | WriteManifest | RemoveSet(set_: int)
    | MakeRelease | FindPython | RemoveEnv | FillEnv | CheckLog
    | BeginMaintenance | StopServices
    | OpenDocs | CopyDocs | OpenItem(item: string) | CopyItem(item: string) | KeepAssets | CopyAssets | KeepManifest
    | Switch | WriteConfig | BeginMigrate | RunMigrate | ImportAssets | Seed | EndMaintenance | StartServices | HealthCheck
    | OpenRecord | WriteRecord | CleanUp | RemoveRelease(release: Id)
    | CheckBackup | BeginRestore | LoadDump | MigrateDump | FinishRestore

  /** How a step ends: it succeeds, raises an error, or the run stops there. */
  datatype Fault = Fine | Error | Stop

  /** What a removal that breaks off leaves of a directory: how much of its body, whether the
      file that marks it as complete is still there, how much of its assets, and whether the
      directory itself was changed. */
  datatype Extent = Stays | InPieces | Gone

  datatype Left = Left(body: Extent, marker: bool, assets: Extent, touched: bool)

  /** What happens at a step: how it ends, what the application writes before it, if it runs,
      and what is left when it is a removal that breaks off. */
  datatype Tick = Tick(fault: Fault, written: seq<int>, left: Left)

  /** A run is decided by what happens at each of its steps. */
  type Plan = Step -> Tick

  predicate Goes(plan: Plan, step: Step) { plan(step).fault.Fine? }

  predicate Early(s: Step) {
    s.Preflight? || s.MakeBackup? || s.Dump? || s.OpenManifest? || s.WriteManifest? || s.RemoveSet?
  }

  predicate Late(s: Step) { s.OpenRecord? || s.WriteRecord? || s.CleanUp? || s.RemoveRelease? }

  predicate AfterSwitch(s: Step) {
    s.WriteConfig? || s.BeginMigrate? || s.RunMigrate? || s.ImportAssets? || s.Seed? || s.EndMaintenance? || s.StartServices?
    || s.HealthCheck?
  }

  predicate Restoring(s: Step) { s.CheckBackup? || s.BeginRestore? || s.LoadDump? || s.MigrateDump? || s.FinishRestore? }

  predicate UpToSwitch(s: Step) { !Early(s) && !Late(s) && !AfterSwitch(s) && !Restoring(s) }

  /** The run ended at a step, if at any, that did not go. */
  predicate Faulty(plan: Plan, at: Option<Step>) { at.Some? ==> !Goes(plan, at.value) }

  /** All but one step go, and that one raises an error. */
  ghost predicate OnlyFault(plan: Plan, step: Step) {
    plan(step).fault.Error? && forall s: Step :: GoesBut(plan, step, s)
  }

  predicate GoesBut(plan: Plan, step: Step, s: Step) { s == step || Goes(plan, s) }

  ghost predicate AllGo(plan: Plan) { forall s: Step :: Goes(plan, s) }

  // ---- what is installed

  datatype Write = ByApplication(value: int) | BySeed(release: Id)

  /** A database: everything written to it, in order, and the release whose schema it has;
      none when a migration or a restore broke off. */
  datatype Db = Db(data: seq<Write>, schema: Option<Id>)

  /** Partial: not all of it is there; `marked` when its marker is there all the same. */
  datatype EnvState = NoEnv | Partial(marked: bool) | Ready

  datatype Assets = NoAssets | TornAssets | WholeAssets

  /** `checked`: the log of this environment's installation showed no network access. */
  datatype Release = Release(env: EnvState, checked: bool, assets: Assets, mtime: int)

  /** What installing an environment looks for. */
  predicate Marked(e: EnvState) { e.Ready? || (e.Partial? && e.marked) }

  /** An item of the deploy tree: whole and from one release, or caught half copied. */
  datatype Part = From(release: Id) | Broken

  datatype Record = Record(action: string, release: Id)

  /** installed.json, written in place. */
  datatype History = Intact(entries: seq<Record>) | Truncated

  /** What a backup set holds; not readable when its manifest was truncated or its files are
      half removed. */
  datatype Saved = Saved(db: Db, readable: bool)

  type Backups = map<int, BackupDir<Saved>>

  const RESTORE: string := "restore.sh"
  const KIT: string := "kit.py"
  const HEALTH: string := "healthcheck.py"

  predicate WholeItem(deploy: map<string, Part>, item: string) { item in deploy && deploy[item].From? }

  /** Bringing a database up to a release's schema; one that is there already stays as it is. */
  function Migrate(db: Db, release: Id): Db { db.(schema := Some(release)) }

  function Applied(written: seq<int>): seq<Write> {
    seq(|written|, i requires 0 <= i < |written| => ByApplication(written[i]))
  }

  /** What the application writes at these steps. */
  function Written(plan: Plan, steps: seq<Step>): seq<Write> {
    if steps == [] then [] else Applied(plan(steps[0]).written) + Written(plan, steps[1..])
  }

  function Its(w: Write): seq<Write> { if w.ByApplication? then [w] else [] }

  /** What the application wrote, of all that was written. */
  function OfApplication(data: seq<Write>): seq<Write> {
    if data == [] then [] else Its(data[0]) + OfApplication(data[1..])
  }

  /** The later database holds all that the earlier one did, and then more. */
  predicate Extends(earlier: Db, later: Db) {
    |earlier.data| <= |later.data| && later.data[..|earlier.data|] == earlier.data
  }

  /** How a run ends. Refused: an error before anything was changed. Failed: an error inside
      the upgrade, with the rollback printed. Stopped: cut off anywhere, or an error after the
      upgrade proper. */
  datatype Exit = Upgraded | NoChange | Refused | Failed | Stopped

  /** How the printed rollback ends. NoScript: the deploy tree cannot run it. NoBackup: there is
      no set, or it fails its checks. NotAllowed: the database is provisioned, and restoring it is
      refused. NotBegun: it broke off before the database was dropped. Lost: it broke off after
      that. Restored: the database is back; `proved` when the rest went well. */
  datatype Back = NoScript | NoBackup | NotAllowed | NotBegun | Lost | Restored(proved: bool)

  // ---- the state, and the steps on it

  /** `superuser`: `[database] provisioning = superuser`; without it a restore is refused.
      `env`: the release the env link names. `online`: the services run, and with them
      whatever writes to the database. */
  datatype State = State(
    superuser: bool, env: Id, releases: map<Id, Release>, deploy: map<string, Part>, db: Db,
    backups: Backups, record: History, online: bool, maintenance: bool)

  /** Where a piece of work left off, and at which step it did not go, if at any. */
  datatype Outcome = Outcome(state: State, at: Option<Step>)

  /** What is asked for: the release, the items of its kit, `--force`; the name of the backup,
      when its manifest is written and what its prune compares with; the time at which this run
      works on directories. */
  datatype Request = Request(id: Id, items: seq<string>, force: bool, name: int, written: int, cutoff: int, now: int)

  predicate Whole(s: State, release: Id) { release in s.releases && s.releases[release].env.Ready? }

  /** The release in use is whole, and the database has its schema. */
  predicate Installed(s: State) { Whole(s, s.env) && s.db.schema == Some(s.env) }

  predicate NothingToDo(s: State, a: Request) { a.id == s.env && !a.force }

  /** The database after the application has written at these steps. */
  function Grown(s: State, steps: seq<Step>, plan: Plan): Db {
    if s.online then s.db.(data := s.db.data + Written(plan, steps)) else s.db
  }

  function Reached(s: State, step: Step, plan: Plan): Outcome {
    Outcome(if s.online then s.(db := s.db.(data := s.db.data + Applied(plan(step).written))) else s,
            if Goes(plan, step) then None else Some(step))
  }

  function SetRelease(s: State, id: Id, r: Release): State { s.(releases := s.releases[id := r]) }

  // ---- the backup

  function SetBackup(s: State, name: int, dir: BackupDir<Saved>): State { s.(backups := s.backups[name := dir]) }

  /** The directory and the dump. */
  function Dumped(s: State, a: Request, plan: Plan): Outcome {
    var o := Reached(s, MakeBackup, plan);
    if o.at.Some? then o
    else if a.name in s.backups then Outcome(o.state, Some(MakeBackup))
    else Reached(o.state, Dump, plan)
  }

  /** The manifest, written in place: a set counts once the file is there. */
  function SetWritten(s: State, a: Request, plan: Plan): Outcome {
    var saved := Saved(s.db, true);
    var o := Reached(SetBackup(s, a.name, BackupDir(false, a.written, saved)), OpenManifest, plan);
    if o.at.Some? then o else
      var p := Reached(SetBackup(o.state, a.name, BackupDir(true, a.written, saved.(readable := false))), WriteManifest, plan);
      if p.at.Some? then p else Outcome(SetBackup(p.state, a.name, BackupDir(true, a.written, saved)), None)
  }

  function SetLeft(b: BackupDir<Saved>, left: Left, now: int): BackupDir<Saved> {
    if left.body.Stays? then b
    else BackupDir(b.manifest && left.marker, if left.touched then now else b.mtime, b.taken.(readable := false))
  }

  /** `prune_backups` over the sets in name order, all but the last. */
  function SetsPruned(s: State, sets: seq<int>, a: Request, plan: Plan): Outcome
    decreases |sets|
  {
    if |sets| <= 1 then Outcome(s, None)
    else if sets[0] !in s.backups || s.backups[sets[0]].mtime >= a.cutoff then SetsPruned(s, sets[1..], a, plan)
    else
      var o := Reached(s, RemoveSet(sets[0]), plan);
      if o.at.Some? then
        Outcome(SetBackup(o.state, sets[0], SetLeft(s.backups[sets[0]], plan(RemoveSet(sets[0])).left, a.now)), o.at)
      else SetsPruned(o.state.(backups := o.state.backups - {sets[0]}), sets[1..], a, plan)
  }

  /** `do_backup`. */
  function BackedUp(s: State, a: Request, sets: seq<int>, plan: Plan): Outcome {
    var o := Dumped(s, a, plan);
    if o.at.Some? then o else
      var p := SetWritten(o.state, a, plan);
      if p.at.Some? then p else SetsPruned(p.state, sets, a, plan)
  }

  // ---- the new release

  function WithNew(releases: map<Id, Release>, id: Id, now: int): (after: map<Id, Release>)
    ensures id in after
  {
    if id in releases then releases else releases[id := Release(NoEnv, false, NoAssets, now)]
  }

  function ReleaseAdded(s: State, a: Request, plan: Plan): Outcome {
    var o := Reached(s, MakeRelease, plan);
    if o.at.Some? then o else Outcome(o.state.(releases := WithNew(o.state.releases, a.id, a.now)), None)
  }

  function EnvLeft(e: EnvState, left: Left): EnvState {
    if left.body.Stays? then e
    else if e.NoEnv? || left.body.Gone? then NoEnv
    else Partial(Marked(e) && left.marker)
  }

  function AssetsLeft(assets: Assets, left: Left): Assets {
    if left.assets.Stays? then assets
    else if assets.NoAssets? || left.assets.Gone? then NoAssets
    else TornAssets
  }

  /** A release whose removal, or that of its environment alone, broke off. */
  function EnvBroken(r: Release, left: Left, now: int): Release {
    r.(env := EnvLeft(r.env, left), mtime := if left.touched then now else r.mtime)
  }

  function Remains(r: Release, left: Left, now: int): Release {
    EnvBroken(r, left, now).(assets := AssetsLeft(r.assets, left))
  }

  /** The environment is built and marked complete, and only then is the log checked for network
      access. */
  function EnvFilled(s: State, id: Id, now: int, plan: Plan): Outcome
    requires id in s.releases
  {
    var r := s.releases[id];
    var p := Reached(SetRelease(s, id, r.(env := Partial(false), checked := false, mtime := now)), FillEnv, plan);
    if p.at.Some? then p else
      var q := Reached(SetRelease(p.state, id, r.(env := Ready, checked := false, mtime := now)), CheckLog, plan);
      if q.at.Some? then q
      else Outcome(SetRelease(q.state, id, r.(env := Ready, checked := true, mtime := now)), None)
  }

  /** What is there of it is removed first. */
  function EnvBuilt(s: State, id: Id, now: int, plan: Plan): Outcome
    requires id in s.releases
  {
    var o := Reached(s, RemoveEnv, plan);
    if o.at.Some? then Outcome(SetRelease(o.state, id, EnvBroken(s.releases[id], plan(RemoveEnv).left, now)), o.at)
    else EnvFilled(o.state, id, now, plan)
  }

  /** An environment that is marked complete is taken as it is. */
  function EnvInstalled(s: State, id: Id, force: bool, now: int, plan: Plan): Outcome
    requires id in s.releases
  {
    var o := Reached(s, FindPython, plan);
    if o.at.Some? || (Marked(s.releases[id].env) && !force) then o else EnvBuilt(o.state, id, now, plan)
  }

  function Halted(s: State, plan: Plan): Outcome {
    var o := Reached(s, BeginMaintenance, plan);
    if o.at.Some? then o else
      var p := Reached(o.state.(maintenance := true), StopServices, plan);
      if p.at.Some? then p else Outcome(p.state.(online := false), None)
  }

  /** Up to the copies: nothing in use has changed but for what the application wrote. */
  function Prepared(s: State, a: Request, plan: Plan): (o: Outcome)
    ensures o.at.None? ==> a.id in o.state.releases
  {
    var o := ReleaseAdded(s, a, plan);
    if o.at.Some? then o else
      var p := EnvInstalled(o.state, a.id, a.force, a.now, plan);
      if p.at.Some? then p else Halted(p.state, plan)
  }

  // ---- the kit

  function SetItem(s: State, item: string, part: Part): State { s.(deploy := s.deploy[item := part]) }

  /** An error before an item is touched leaves it as it was; one while it is removed or copied
      leaves it torn. */
  function ItemsCopied(s: State, id: Id, items: seq<string>, plan: Plan): Outcome
    decreases |items|
  {
    if items == [] then Outcome(s, None) else
      var o := Reached(s, OpenItem(items[0]), plan);
      if o.at.Some? then o else
        var p := Reached(SetItem(o.state, items[0], Broken), CopyItem(items[0]), plan);
        if p.at.Some? then p else ItemsCopied(SetItem(p.state, items[0], From(id)), id, items[1..], plan)
  }

  /** Replacing the documents in it gives the release's directory a new time. */
  function DocsCopied(s: State, id: Id, now: int, plan: Plan): Outcome
    requires id in s.releases
  {
    var o := Reached(s, OpenDocs, plan);
    if o.at.Some? then o else Reached(SetRelease(o.state, id, s.releases[id].(mtime := now)), CopyDocs, plan)
  }

  /** The assets are copied unless their directory is there. */
  function AssetsKept(s: State, id: Id, now: int, plan: Plan): Outcome
    requires id in s.releases
  {
    var r := s.releases[id];
    var o := Reached(s, KeepAssets, plan);
    if o.at.Some? then o
    else if !r.assets.NoAssets? then Reached(o.state, KeepManifest, plan)
    else
      var p := Reached(SetRelease(o.state, id, r.(assets := TornAssets, mtime := now)), CopyAssets, plan);
      if p.at.Some? then p
      else Reached(SetRelease(p.state, id, r.(assets := WholeAssets, mtime := now)), KeepManifest, plan)
  }

  /** `copy_kit`. */
  function KitCopied(s: State, a: Request, plan: Plan): Outcome
    requires a.id in s.releases
  {
    var o := DocsCopied(s, a.id, a.now, plan);
    if o.at.Some? then o else
      var p := ItemsCopied(o.state, a.id, a.items, plan);
      if p.at.Some? || a.id !in p.state.releases then p else AssetsKept(p.state, a.id, a.now, plan)
  }

  // ---- from the switch on

  /** The database is seeded. */
  function Seeded(s: State, id: Id, plan: Plan): Outcome {
    var q := Reached(s, ImportAssets, plan);
    if q.at.Some? then q
    else Reached(q.state.(db := q.state.db.(data := q.state.db.data + [BySeed(id)])), Seed, plan)
  }

  /** The database is migrated and seeded; an error before the migration has changed anything is
      one of its beginning. */
  function Moved(s: State, id: Id, plan: Plan): Outcome {
    var o := Reached(s, WriteConfig, plan);
    if o.at.Some? then o else
      var b := Reached(o.state, BeginMigrate, plan);
      if b.at.Some? then b else
        var p := Reached(b.state, RunMigrate, plan);
        if p.at.Some? then p.(state := p.state.(db := p.state.db.(schema := None)))
        else Seeded(p.state.(db := p.state.db.(schema := Some(id))), id, plan)
  }

  /** The site comes back; services are up from the moment they are being started. */
  function CameBack(s: State, plan: Plan): Outcome {
    var o := Reached(s, EndMaintenance, plan);
    if o.at.Some? then o else
      var p := Reached(o.state.(maintenance := false, online := true), StartServices, plan);
      if p.at.Some? then p else Reached(p.state, HealthCheck, plan)
  }

  /** From the switch to the end of the block. */
  function Landed(s: State, id: Id, plan: Plan): Outcome {
    var r := Moved(s.(env := id), id, plan);
    if r.at.Some? then r else CameBack(r.state, plan)
  }

  /** From the copies on. */
  function Switched(s: State, a: Request, plan: Plan): Outcome
    requires a.id in s.releases
  {
    var p := KitCopied(s, a, plan);
    if p.at.Some? then p else
      var q := Reached(p.state, Switch, plan);
      if q.at.Some? then q else Landed(q.state, a.id, plan)
  }

  /** Steps 2 to 7, inside the source's `try`. */
  function Changed(s: State, a: Request, plan: Plan): Outcome {
    var o := Prepared(s, a, plan);
    if o.at.Some? then o else Switched(o.state, a, plan)
  }

  // ---- the end

  /** A release is removed, or what its removal leaves stays. */
  function Dropped(s: State, id: Id, now: int, plan: Plan): State
    requires id in s.releases
  {
    var o := Reached(s, RemoveRelease(id), plan).state;
    if Goes(plan, RemoveRelease(id)) then o.(releases := o.releases - {id})
    else SetRelease(o, id, Remains(s.releases[id], plan(RemoveRelease(id)).left, now))
  }

  /** The removals of `prune_releases`: an error is ignored and what is left stays; the release
      in use is passed over. */
  function ReleasesPruned(s: State, rest: seq<Id>, now: int, plan: Plan): Outcome
    decreases |rest|
  {
    if rest == [] then Outcome(s, None)
    else if rest[0] == s.env || rest[0] !in s.releases then ReleasesPruned(s, rest[1..], now, plan)
    else
      var step := RemoveRelease(rest[0]);
      if plan(step).fault.Stop? then Outcome(Dropped(s, rest[0], now, plan), Some(step))
      else ReleasesPruned(Dropped(s, rest[0], now, plan), rest[1..], now, plan)
  }

  /** The listing after the first `keep`. */
  function Rest(dirs: seq<Id>, keep: nat): seq<Id> { if keep <= |dirs| then dirs[keep..] else [] }

  /** `record_release`: the history is read, and written in place. */
  function Recorded(s: State, id: Id, plan: Plan): Outcome {
    var o := Reached(s, OpenRecord, plan);
    if o.at.Some? then o
    else if s.record.Truncated? then Outcome(o.state, Some(OpenRecord))
    else
      var p := Reached(o.state.(record := Truncated), WriteRecord, plan);
      if p.at.Some? then p
      else Outcome(p.state.(record := Intact(s.record.entries + [Record("upgrade", id)])), None)
  }

  /** The record, and the prune of the releases listed. */
  function Concluded(s: State, a: Request, dirs: seq<Id>, plan: Plan): Outcome {
    var o := Recorded(s, a.id, plan);
    if o.at.Some? then o else
      var p := Reached(o.state, CleanUp, plan);
      if p.at.Some? then p else ReleasesPruned(p.state, Rest(dirs, 2), a.now, plan)
  }

  // ---- whole runs

  datatype End = End(state: State, exit: Exit, at: Option<Step>)

  function Times(releases: map<Id, Release>): map<Id, int> { map r | r in releases :: releases[r].mtime }

  /** The listings that the two prunes of a run went by. */
  datatype Trace = Trace(sets: seq<int>, dirs: seq<Id>)

  function Cut(plan: Plan, at: Step, exit: Exit): Exit { if plan(at).fault.Stop? then Stopped else exit }

  /** A run of the upgrade after its backup. */
  function Carried(s: State, a: Request, dirs: seq<Id>, plan: Plan): End {
    var c := Changed(s, a, plan);
    if c.at.Some? then End(c.state, Cut(plan, c.at.value, Failed), c.at) else
      var d := Concluded(c.state, a, dirs, plan);
      End(d.state, if d.at.None? then Upgraded else Stopped, d.at)
  }

  /** From the backup on. */
  function Pursued(s: State, a: Request, t: Trace, plan: Plan): End {
    var b := BackedUp(s, a, t.sets, plan);
    if b.at.Some? then End(b.state, Cut(plan, b.at.value, Refused), b.at) else Carried(b.state, a, t.dirs, plan)
  }

  /** A run of the upgrade. */
  function Ran(s: State, a: Request, t: Trace, plan: Plan): End {
    var o := Reached(s, Preflight, plan);
    if o.at.Some? then End(o.state, Cut(plan, o.at.value, Refused), o.at)
    else if NothingToDo(s, a) then End(o.state, NoChange, None)
    else Pursued(o.state, a, t, plan)
  }

  /** The database that the run dumps, if it comes to that. */
  function DumpOf(s: State, a: Request, plan: Plan): Db {
    Dumped(Reached(s, Preflight, plan).state, a, plan).state.db
  }

  ghost predicate ListsSets(sets: seq<int>, backups: Backups) {
    Listing(sets, Sets(backups), map name | name in Sets(backups) :: name)
  }

  ghost predicate ListsReleases(dirs: seq<Id>, releases: map<Id, Release>) {
    Listing(dirs, releases.Keys, Ages(Times(releases)))
  }

  /** The prunes that the run came to went by these listings. */
  ghost predicate Listed(s: State, a: Request, t: Trace, plan: Plan) {
    && ListedSets(s, a, t.sets, plan)
    && (BackedUp(s, a, t.sets, plan).at.None? ==> ListedReleases(BackedUp(s, a, t.sets, plan).state, a, t.dirs, plan))
  }

  ghost predicate ListedSets(s: State, a: Request, sets: seq<int>, plan: Plan) {
    var d := Dumped(s, a, plan);
    var w := SetWritten(d.state, a, plan);
    d.at.None? && w.at.None? ==> ListsSets(sets, w.state.backups)
  }

  ghost predicate ListedReleases(s: State, a: Request, dirs: seq<Id>, plan: Plan) {
    var c := Changed(s, a, plan);
    c.at.None? && Recorded(c.state, a.id, plan).at.None? && Goes(plan, CleanUp) ==> ListsReleases(dirs, c.state.releases)
  }

  /** The run, when the listings are those that it came to. */
  ghost function RunOf(s: State, t: Trace, a: Request, plan: Plan): Option<End> {
    if Goes(plan, Preflight) && !NothingToDo(s, a) && !Listed(Reached(s, Preflight, plan).state, a, t, plan) then None
    else Some(Ran(s, a, t, plan))
  }

  ghost predicate IsRun(s: State, e: End, t: Trace, a: Request, plan: Plan) { RunOf(s, t, a, plan) == Some(e) }

  // ---- the printed rollback

  /** What a restore needs: its script and the kit beside it whole, a backup that can be read,
      and a database that may be restored. */
  predicate CanRestore(s: State, name: int) {
    && WholeItem(s.deploy, RESTORE) && WholeItem(s.deploy, KIT)
    && name in s.backups && s.backups[name].taken.readable && s.superuser
  }

  /** The restore comes to dropping the database. */
  predicate Drops(s: State, name: int, plan: Plan) {
    CanRestore(s, name) && Goes(plan, CheckBackup) && Goes(plan, BeginRestore)
  }

  predicate Restores(s: State, name: int, plan: Plan) {
    Drops(s, name, plan) && Goes(plan, LoadDump) && Goes(plan, MigrateDump)
  }

  /** Services down, the link back, the deploy tree's restore script, services up. */
  function RolledBack(s: State, previous: Id, name: int, plan: Plan): (State, Back) {
    var t := s.(env := previous, online := true);
    if !WholeItem(s.deploy, RESTORE) || !WholeItem(s.deploy, KIT) then (t, NoScript)
    else if name !in s.backups || !s.backups[name].taken.readable || !Goes(plan, CheckBackup) then (t, NoBackup)
    else if !s.superuser then (t, NotAllowed)
    else if !Goes(plan, BeginRestore) then (t.(maintenance := true), NotBegun)
    else if !Goes(plan, LoadDump) then (t.(maintenance := true, db := Db([], None)), Lost)
    else
      var db := s.backups[name].taken.db;
      if !Goes(plan, MigrateDump) then (t.(maintenance := true, db := db.(schema := None)), Lost)
      else (t.(maintenance := false, db := Migrate(db, previous)), Restored(Goes(plan, FinishRestore) && WholeItem(s.deploy, HEALTH)))
  }
}
