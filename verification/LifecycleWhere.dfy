/** Where a run that ends at a step leaves everything: the site, the release, the deploy tree
    and the database, each said outright for each step of the upgrade. */
module LifecycleWhere {
  import opened Text
  import opened Lifecycle
  import opened Retention
  import opened LifecycleTheorems
  import opened LifecycleRuns

  // ---- the site

  datatype Site = Site(online: bool, maintenance: bool)

  function SiteOf(s: State): Site { Site(s.online, s.maintenance) }

  /** At which steps it is down. */
  predicate DownAt(x: Step) {
    || x.OpenDocs? || x.CopyDocs? || x.OpenItem? || x.CopyItem? || x.KeepAssets? || x.CopyAssets? || x.KeepManifest?
    || x.Switch? || x.WriteConfig? || x.BeginMigrate? || x.RunMigrate? || x.ImportAssets? || x.Seed? || x.EndMaintenance?
  }

  predicate PreparingAt(x: Step) {
    x.MakeRelease? || x.FindPython? || x.RemoveEnv? || x.FillEnv? || x.CheckLog? || x.BeginMaintenance?
  }

  /** Before it is taken down, while it is down, and once it is being brought back. */
  function SiteAt(at: Option<Step>, before: Site): Site {
    match at
    case None => Site(true, false)
    case Some(x) =>
      if x.StopServices? then before.(maintenance := true)
      else if DownAt(x) then Site(false, true)
      else if x.StartServices? || x.HealthCheck? then Site(true, false)
      else before
  }

  lemma HaltedSite(s: State, plan: Plan)
    ensures var o := Halted(s, plan);
            SiteOf(o.state) == if o.at.None? then Site(false, true) else SiteAt(o.at, SiteOf(s))
    ensures var at := Halted(s, plan).at; at.Some? ==> at.value.BeginMaintenance? || at.value.StopServices?
  {
    ReachedFacts(s, BeginMaintenance, plan);
    ReachedFacts(Reached(s, BeginMaintenance, plan).state.(maintenance := true), StopServices, plan);
  }

  lemma EnvSite(s: State, a: Request, plan: Plan)
    requires a.id in s.releases
    ensures var o := EnvInstalled(s, a.id, a.force, a.now, plan);
            SiteOf(o.state) == SiteOf(s) && (o.at.Some? ==> PreparingAt(o.at.value))
  {
    EnvInstalledRelease(s, a.id, a.force, a.now, plan);
  }

  lemma PreparedSite(s: State, a: Request, plan: Plan)
    ensures PreparedEnd(SiteOf(s), Prepared(s, a, plan))
  {
    AddedSite(s, a, plan);
    var o := ReleaseAdded(s, a, plan);
    if o.at.Some? {
      EndsPrepared(SiteOf(s), o);
    } else {
      RestSite(o.state, a, plan);
    }
  }

  predicate PreparedEnd(before: Site, o: Outcome) {
    && SiteOf(o.state) == (if o.at.None? then Site(false, true) else SiteAt(o.at, before))
    && (o.at.Some? ==> PreparingAt(o.at.value) || o.at.value.StopServices?)
  }

  lemma EndsPrepared(before: Site, o: Outcome)
    requires SiteOf(o.state) == before && o.at.Some? && PreparingAt(o.at.value)
    ensures PreparedEnd(before, o)
  {
  }

  lemma AddedSite(s: State, a: Request, plan: Plan)
    ensures var o := ReleaseAdded(s, a, plan);
            SiteOf(o.state) == SiteOf(s) && (o.at.Some? ==> o.at.value.MakeRelease?) && (o.at.None? ==> a.id in o.state.releases)
  {
    ReachedFacts(s, MakeRelease, plan);
  }

  lemma RestSite(s: State, a: Request, plan: Plan)
    requires a.id in s.releases
    ensures var p := EnvInstalled(s, a.id, a.force, a.now, plan);
            PreparedEnd(SiteOf(s), if p.at.Some? then p else Halted(p.state, plan))
  {
    var p := EnvInstalled(s, a.id, a.force, a.now, plan);
    EnvSite(s, a, plan);
    if p.at.Some? {
      EndsPrepared(SiteOf(s), p);
    } else {
      HaltedSite(p.state, plan);
    }
  }

  lemma CameBackSite(s: State, plan: Plan)
    requires SiteOf(s) == Site(false, true)
    ensures SiteOf(CameBack(s, plan).state) == SiteAt(CameBack(s, plan).at, SiteOf(s))
  {
    ReachedFacts(s, EndMaintenance, plan);
    var up := Reached(s, EndMaintenance, plan).state.(maintenance := false, online := true);
    ReachedFacts(up, StartServices, plan);
    ReachedFacts(Reached(up, StartServices, plan).state, HealthCheck, plan);
  }

  lemma LandedSite(s: State, id: Id, plan: Plan)
    requires SiteOf(s) == Site(false, true)
    ensures SiteOf(Landed(s, id, plan).state) == SiteAt(Landed(s, id, plan).at, SiteOf(s))
  {
    MovedFacts(s.(env := id), id, plan);
    var r := Moved(s.(env := id), id, plan);
    if r.at.None? { CameBackSite(r.state, plan); }
  }

  lemma SwitchedSite(s: State, a: Request, plan: Plan)
    requires SiteOf(s) == Site(false, true) && a.id in s.releases
    ensures SiteOf(Switched(s, a, plan).state) == SiteAt(Switched(s, a, plan).at, SiteOf(s))
    ensures var at := Switched(s, a, plan).at; at.Some? ==> DownAt(at.value) || at.value.StartServices? || at.value.HealthCheck?
  {
    SwitchedFacts(s, a, plan);
    KitCopiedFacts(s, a, plan);
    var p := KitCopied(s, a, plan);
    if p.at.None? {
      ReachedFacts(p.state, Switch, plan);
      if Goes(plan, Switch) { LandedSite(Reached(p.state, Switch, plan).state, a.id, plan); }
    }
  }

  predicate InBlock(x: Step) {
    PreparingAt(x) || x.StopServices? || DownAt(x) || x.StartServices? || x.HealthCheck?
  }

  lemma ChangedSite(s: State, a: Request, plan: Plan)
    ensures SiteOf(Changed(s, a, plan).state) == SiteAt(Changed(s, a, plan).at, SiteOf(s))
    ensures var at := Changed(s, a, plan).at; at.Some? ==> InBlock(at.value)
  {
    PreparedSite(s, a, plan);
    var o := Prepared(s, a, plan);
    if o.at.None? { SwitchedSite(o.state, a, plan); }
  }

  lemma CarriedSite(m: State, a: Request, dirs: seq<Id>, plan: Plan)
    ensures var e := Carried(m, a, dirs, plan); SiteWhere(SiteOf(m), SiteOf(e.state), e.at, e.exit)
  {
    ChangedSite(m, a, plan);
    CarriedFacts(m, a, dirs, plan);
    var c, e := Changed(m, a, plan), Carried(m, a, dirs, plan);
    if c.at.Some? {
      SiteInBlock(SiteOf(m), SiteOf(e.state), e.at.value, e.exit);
    } else {
      SiteLate(SiteOf(m), SiteOf(e.state), e.at, e.exit);
    }
  }

  lemma SiteInBlock(before: Site, after: Site, x: Step, exit: Exit)
    requires InBlock(x) && !exit.Upgraded? && !exit.NoChange? && after == SiteAt(Some(x), before)
    ensures SiteWhere(before, after, Some(x), exit)
  {
  }

  lemma SiteLate(before: Site, after: Site, at: Option<Step>, exit: Exit)
    requires (at.Some? ==> Late(at.value)) && !exit.NoChange? && after == SiteAt(None, before)
    ensures SiteWhere(before, after, at, exit)
  {
  }

  predicate SiteWhere(before: Site, after: Site, at: Option<Step>, exit: Exit) {
    && (exit.Upgraded? || (at.Some? && Late(at.value)) ==> after.online && !after.maintenance)
    && (at.Some? && (at.value.StartServices? || at.value.HealthCheck?) ==> after.online && !after.maintenance)
    && (at.Some? && DownAt(at.value) ==> !after.online && after.maintenance)
    && (at.Some? && at.value.StopServices? ==> after.online == before.online && after.maintenance)
    && (exit.NoChange? || (at.Some? && (Early(at.value) || PreparingAt(at.value))) ==> after == before)
  }

  lemma EarlySite(s: State, e: End)
    requires SiteOf(e.state) == SiteOf(s) && !e.exit.Upgraded? && (e.at.Some? ==> Early(e.at.value))
    ensures SiteWhere(SiteOf(s), SiteOf(e.state), e.at, e.exit)
  {
  }

  /** Over every run: the site at its end, by the step at which it ended. It is down, in
      maintenance, from the first copy to the end of maintenance; up, and out of it, from there
      on; and as it was before that. */
  lemma SiteOfRun(s: State, e: End, t: Trace, a: Request, plan: Plan)
    requires IsRun(s, e, t, a, plan)
    ensures SiteWhere(Site(s.online, s.maintenance), Site(e.state.online, e.state.maintenance), e.at, e.exit)
  {
    RunStart(s, e, t, a, plan);
    if WentOn(s, a, t, plan) {
      CarriedSite(Mid(s, a, t, plan), a, t.dirs, plan);
    } else {
      EarlySite(s, e);
    }
  }

  /** The printed rollback: services are up whatever it comes to. Maintenance is as the failed
      upgrade left it when the restore was not begun or was refused, lifted when it went through,
      and on when it broke off. */
  lemma SiteAfterRollback(s: State, previous: Id, name: int, plan: Plan)
    ensures var (r, back) := RolledBack(s, previous, name, plan);
            && r.online
            && (back.NoScript? || back.NoBackup? || back.NotAllowed? ==> r.maintenance == s.maintenance && r.db == s.db)
            && (back.NotBegun? ==> r.maintenance && r.db == s.db)
            && (back.Lost? ==> r.maintenance && r.db.schema == None)
            && (back.Restored? ==> !r.maintenance)
  {
  }

  /** How it ends, for each cause in the order in which the restore comes to it. */
  lemma RollbackEnds(s: State, previous: Id, name: int, plan: Plan)
    ensures var back := RolledBack(s, previous, name, plan).1;
            var script := WholeItem(s.deploy, RESTORE) && WholeItem(s.deploy, KIT);
            var backup := name in s.backups && s.backups[name].taken.readable && Goes(plan, CheckBackup);
            && (back.NoScript? <==> !script)
            && (back.NoBackup? <==> script && !backup)
            && (back.NotAllowed? <==> script && backup && !s.superuser)
            && (back.NotBegun? <==> script && backup && s.superuser && !Goes(plan, BeginRestore))
            && (back.Lost? <==> script && backup && s.superuser && Goes(plan, BeginRestore) && !(Goes(plan, LoadDump) && Goes(plan, MigrateDump)))
  {
  }

  /** What a failed upgrade and its rollback leave of the site. */
  lemma SiteRolledBack(s: State, e: End, t: Trace, a: Request, plan: Plan, way: Plan)
    requires IsRun(s, e, t, a, plan) && e.exit.Failed?
    ensures var (r, back) := RolledBack(e.state, s.env, a.name, way);
            && r.online
            && (back.Restored? ==> !r.maintenance)
            && (back.NotBegun? || back.Lost? ==> r.maintenance)
            && (back.NoScript? || back.NoBackup? || back.NotAllowed? ==>
                  && (DownAt(e.at.value) || e.at.value.StopServices? ==> r.maintenance)
                  && (e.at.value.StartServices? || e.at.value.HealthCheck? ==> !r.maintenance)
                  && (PreparingAt(e.at.value) ==> r.maintenance == s.maintenance))
  {
    HowItEnds(s, e, t, a, plan);
    SiteOfRun(s, e, t, a, plan);
    SiteAfterRollback(e.state, s.env, a.name, way);
  }

  // ---- the release

  /** The release's directory as it was, or a new one. */
  function OldOrNew(before: map<Id, Release>, a: Request): Release {
    if a.id in before then before[a.id] else Release(NoEnv, false, NoAssets, a.now)
  }

  function WithEnv(before: map<Id, Release>, a: Request): Release {
    if TakenAsIs(before, a) then OldOrNew(before, a) else OldOrNew(before, a).(env := Ready, checked := true, mtime := a.now)
  }

  /** The release upgraded to, where the run ended at a step. */
  function ReleaseAt(before: map<Id, Release>, a: Request, x: Step, plan: Plan): Release {
    var found, built := OldOrNew(before, a), WithEnv(before, a);
    match x
    case FindPython => found
    case RemoveEnv => EnvBroken(found, plan(RemoveEnv).left, a.now)
    case FillEnv => found.(env := Partial(false), checked := false, mtime := a.now)
    case CheckLog => found.(env := Ready, checked := false, mtime := a.now)
    case BeginMaintenance => built
    case StopServices => built
    case OpenDocs => built
    case CopyDocs => built.(mtime := a.now)
    case OpenItem(_) => built.(mtime := a.now)
    case CopyItem(_) => built.(mtime := a.now)
    case KeepAssets => built.(mtime := a.now)
    case CopyAssets => built.(mtime := a.now, assets := TornAssets)
    case _ => built.(mtime := a.now, assets := if built.assets.NoAssets? then WholeAssets else built.assets)
  }

  function ReleasesAt(before: map<Id, Release>, a: Request, at: Option<Step>, plan: Plan): map<Id, Release> {
    if at.Some? && at.value.MakeRelease? then before
    else before[a.id := ReleaseAt(before, a, at.GetOr(Switch), plan)]
  }

  /** What a removal that breaks off leaves of an environment and of assets. */
  lemma WhatIsLeft(r: Release, left: Left, now: int)
    ensures var after := Remains(r, left, now);
            && after.checked == r.checked && after.mtime == (if left.touched then now else r.mtime)
            && after == EnvBroken(r, left, now).(assets := after.assets) && EnvBroken(r, left, now).assets == r.assets
            && (left.body.Stays? || r.env.NoEnv? ==> after.env == r.env)
            && (left.body.Gone? ==> after.env.NoEnv?)
            && (left.body.InPieces? && !r.env.NoEnv? ==>
                  after.env == Partial(left.marker && (r.env.Ready? || (r.env.Partial? && r.env.marked))))
            && (left.assets.Stays? || r.assets.NoAssets? ==> after.assets == r.assets)
            && (left.assets.Gone? ==> after.assets.NoAssets?)
            && (left.assets.InPieces? && !r.assets.NoAssets? ==> after.assets.TornAssets?)
  {
  }

  /** And of a backup set. */
  lemma WhatIsLeftOfSet(b: BackupDir<Saved>, left: Left, now: int)
    ensures left.body.Stays? ==> SetLeft(b, left, now) == b
    ensures !left.body.Stays? ==>
              && !SetLeft(b, left, now).taken.readable && SetLeft(b, left, now).taken.db == b.taken.db
              && (SetLeft(b, left, now).manifest <==> b.manifest && left.marker)
              && SetLeft(b, left, now).mtime == (if left.touched then now else b.mtime)
  {
  }

  lemma AddedRelease(s: State, a: Request, plan: Plan)
    ensures var o := ReleaseAdded(s, a, plan);
            && o.state == s.(db := o.state.db, releases := o.state.releases)
            && o.state.releases == (if o.at.Some? then s.releases else s.releases[a.id := OldOrNew(s.releases, a)])
            && (o.at.Some? ==> o.at.value.MakeRelease?)
  {
    ReachedFacts(s, MakeRelease, plan);
  }

  lemma EnvReleases(s: State, before: map<Id, Release>, a: Request, plan: Plan)
    requires s.releases == before[a.id := OldOrNew(before, a)]
    ensures var o := EnvInstalled(s, a.id, a.force, a.now, plan);
            o.state.releases == before[a.id := if o.at.None? then WithEnv(before, a) else ReleaseAt(before, a, o.at.value, plan)]
    ensures var at := EnvInstalled(s, a.id, a.force, a.now, plan).at; at.Some? ==> PreparingAt(at.value)
  {
    EnvInstalledRelease(s, a.id, a.force, a.now, plan);
    var o := EnvInstalled(s, a.id, a.force, a.now, plan);
    var r := EnvAfter(OldOrNew(before, a), o.at, a.now, plan);
    UpdateTwice(before, a.id, OldOrNew(before, a), r);
    if o.at.Some? { InEnvSteps(o.at.value, Marked(OldOrNew(before, a).env) && !a.force); }
  }

  lemma InEnvSteps(x: Step, taken: bool)
    requires x in EnvSteps(taken)
    ensures x.FindPython? || (!taken && (x.RemoveEnv? || x.FillEnv? || x.CheckLog?))
  {
  }

  lemma PreparedReleasesAt(s: State, a: Request, plan: Plan)
    ensures var o := Prepared(s, a, plan);
            o.state.releases == if o.at.None? then s.releases[a.id := WithEnv(s.releases, a)] else ReleasesAt(s.releases, a, o.at, plan)
  {
    AddedRelease(s, a, plan);
    var o := ReleaseAdded(s, a, plan);
    if o.at.None? {
      EnvReleases(o.state, s.releases, a, plan);
      var p := EnvInstalled(o.state, a.id, a.force, a.now, plan);
      if p.at.None? { HaltedReleases(p.state, s.releases, a, plan); }
    }
  }

  lemma HaltedReleases(s: State, before: map<Id, Release>, a: Request, plan: Plan)
    requires s.releases == before[a.id := WithEnv(before, a)]
    ensures var o := Halted(s, plan); o.state.releases == s.releases
    ensures var o := Halted(s, plan); o.at.Some? ==> ReleasesAt(before, a, o.at, plan) == s.releases
  {
    HaltedFacts(s, plan);
  }

  predicate DocsStep(x: Step) { x.OpenDocs? || x.CopyDocs? }

  predicate AssetsStep(x: Step) { x.KeepAssets? || x.CopyAssets? || x.KeepManifest? }

  lemma DocsReleases(s: State, before: map<Id, Release>, a: Request, plan: Plan)
    requires !s.online && s.releases == before[a.id := WithEnv(before, a)]
    ensures var o := DocsCopied(s, a.id, a.now, plan);
            && o.state == s.(releases := before[a.id := if o.at.None? then WithEnv(before, a).(mtime := a.now)
                                                        else ReleaseAt(before, a, o.at.value, plan)])
            && (o.at.Some? ==> DocsStep(o.at.value))
  {
    ReachedFacts(s, OpenDocs, plan);
    var touched := WithEnv(before, a).(mtime := a.now);
    ReachedFacts(SetRelease(s, a.id, touched), CopyDocs, plan);
    UpdateTwice(before, a.id, WithEnv(before, a), touched);
  }

  lemma AssetsReleases(s: State, before: map<Id, Release>, a: Request, plan: Plan)
    requires !s.online && s.releases == before[a.id := WithEnv(before, a).(mtime := a.now)]
    ensures var o := AssetsKept(s, a.id, a.now, plan);
            && o.state == s.(releases := before[a.id := ReleaseAt(before, a, o.at.GetOr(Switch), plan)])
            && (o.at.Some? ==> AssetsStep(o.at.value))
  {
    var r := WithEnv(before, a).(mtime := a.now);
    ReachedFacts(s, KeepAssets, plan);
    ReachedFacts(s, KeepManifest, plan);
    var torn, whole := r.(assets := TornAssets), r.(assets := WholeAssets);
    ReachedFacts(SetRelease(s, a.id, torn), CopyAssets, plan);
    ReachedFacts(SetRelease(SetRelease(s, a.id, torn), a.id, whole), KeepManifest, plan);
    UpdateTwice(before, a.id, r, torn);
    UpdateTwice(before, a.id, torn, whole);
  }

  lemma KitReleases(s: State, before: map<Id, Release>, a: Request, plan: Plan)
    requires !s.online && s.releases == before[a.id := WithEnv(before, a)]
    ensures var o := KitCopied(s, a, plan);
            o.state.releases == before[a.id := ReleaseAt(before, a, o.at.GetOr(Switch), plan)]
    ensures var at := KitCopied(s, a, plan).at; at.Some? ==> KitStep(at.value)
  {
    DocsReleases(s, before, a, plan);
    var o := DocsCopied(s, a.id, a.now, plan);
    if o.at.None? {
      ItemsCopiedFacts(o.state, a.id, a.items, plan);
      var p := ItemsCopied(o.state, a.id, a.items, plan);
      if p.at.None? { AssetsReleases(p.state, before, a, plan); }
    }
  }

  lemma SwitchedReleases(s: State, before: map<Id, Release>, a: Request, plan: Plan)
    requires !s.online && s.releases == before[a.id := WithEnv(before, a)]
    ensures Switched(s, a, plan).state.releases == ReleasesAt(before, a, Switched(s, a, plan).at, plan)
  {
    KitReleases(s, before, a, plan);
    KitCopiedFacts(s, a, plan);
    var p := KitCopied(s, a, plan);
    if p.at.None? {
      ReachedFacts(p.state, Switch, plan);
      LandedFacts(p.state, a.id, plan);
      if Goes(plan, Switch) { LandedReleases(before, a, Landed(p.state, a.id, plan).at, plan); }
    }
  }

  lemma LandedReleases(before: map<Id, Release>, a: Request, at: Option<Step>, plan: Plan)
    requires at.Some? ==> AfterSwitch(at.value)
    ensures ReleasesAt(before, a, at, plan) == before[a.id := ReleaseAt(before, a, Switch, plan)]
  {
  }

  lemma ChangedReleases(s: State, a: Request, plan: Plan)
    ensures Changed(s, a, plan).state.releases == ReleasesAt(s.releases, a, Changed(s, a, plan).at, plan)
  {
    PreparedReleasesAt(s, a, plan);
    PreparedFacts(s, a, plan);
    var p := Prepared(s, a, plan);
    if p.at.None? { SwitchedReleases(p.state, s.releases, a, plan); }
  }

  /** Over every run that ends inside the upgrade: the directories are those it began with, but
      for the release upgraded to, and that one is as the step says. */
  lemma ReleaseOfRun(s: State, e: End, t: Trace, a: Request, plan: Plan)
    requires IsRun(s, e, t, a, plan) && e.at.Some? && InBlock(e.at.value)
    ensures e.state.releases == ReleasesAt(s.releases, a, e.at, plan)
  {
    BlockOfRun(s, e, t, a, plan);
    ChangedReleases(Mid(s, a, t, plan), a, plan);
  }

  lemma InBlockOnly(x: Step)
    ensures InBlock(x) ==> !Early(x) && !Late(x)
  {
  }

  /** A run that ends inside the upgrade ends as the block does, from where the backup left it. */
  lemma BlockOfRun(s: State, e: End, t: Trace, a: Request, plan: Plan)
    requires IsRun(s, e, t, a, plan) && e.at.Some? && InBlock(e.at.value)
    ensures WentOn(s, a, t, plan) && OnlyBackups(s, Mid(s, a, t, plan))
    ensures Changed(Mid(s, a, t, plan), a, plan) == Outcome(e.state, e.at)
  {
    InBlockOnly(e.at.value);
    RunStart(s, e, t, a, plan);
    CarriedFacts(Mid(s, a, t, plan), a, t.dirs, plan);
  }

  // ---- the deploy tree

  /** These items are from the release, one may be caught half copied, the rest is as it was. */
  ghost predicate TreeIs(before: map<string, Part>, after: map<string, Part>, id: Id, done: seq<string>, torn: Option<string>) {
    forall item: string :: ItemIs(before, after, id, done, torn, item)
  }

  predicate ItemIs(before: map<string, Part>, after: map<string, Part>, id: Id, done: seq<string>, torn: Option<string>, item: string) {
    if torn == Some(item) then item in after && after[item].Broken?
    else if item in done then item in after && after[item] == From(id)
    else if item in before then item in after && after[item] == before[item]
    else item !in after
  }

  /** The items are copied in their order: the copy of one leaves those before it done and those
      after it as they were. */
  ghost predicate TreeAt(before: map<string, Part>, after: map<string, Part>, id: Id, items: seq<string>, at: Option<Step>) {
    if at.Some? && (PreparingAt(at.value) || at.value.StopServices? || DocsStep(at.value)) then after == before
    else if at.Some? && at.value.OpenItem? then
      exists k :: 0 <= k < |items| && items[k] == at.value.item && TreeIs(before, after, id, items[..k], None)
    else if at.Some? && at.value.CopyItem? then
      exists k :: 0 <= k < |items| && items[k] == at.value.item && TreeIs(before, after, id, items[..k], Some(at.value.item))
    else TreeIs(before, after, id, items, None)
  }

  lemma ItemTorn(before: map<string, Part>, tree: map<string, Part>, id: Id, done: seq<string>, item: string)
    requires TreeIs(before, tree, id, done, None)
    ensures TreeIs(before, tree[item := Broken], id, done, Some(item))
    ensures TreeIs(before, tree[item := Broken][item := From(id)], id, done + [item], None)
  {
    var broken, at := tree[item := Broken], Some(item);
    forall other: string
      ensures ItemIs(before, broken, id, done, at, other)
    {
      assert ItemIs(before, tree, id, done, None, other);
    }
    var copied, more := broken[item := From(id)], done + [item];
    forall other: string
      ensures ItemIs(before, copied, id, more, None, other)
    {
      assert ItemIs(before, tree, id, done, None, other);
    }
  }

  lemma {:induction false} ItemsAt(s: State, before: map<string, Part>, a: Request, k: nat, plan: Plan)
    requires !s.online && k <= |a.items| && TreeIs(before, s.deploy, a.id, a.items[..k], None)
    ensures var o := ItemsCopied(s, a.id, a.items[k..], plan);
            && TreeAt(before, o.state.deploy, a.id, a.items, o.at)
            && (o.at.Some? ==> o.at.value.OpenItem? || o.at.value.CopyItem?)
    decreases |a.items| - k
  {
    if k == |a.items| {
      assert a.items[..k] == a.items;
    } else {
      var rest, item := a.items[k..], a.items[k];
      assert rest[0] == item && rest[1..] == a.items[k + 1..] && a.items[..k + 1] == a.items[..k] + [item];
      ReachedFacts(s, OpenItem(item), plan);
      var torn := SetItem(s, item, Broken);
      ReachedFacts(torn, CopyItem(item), plan);
      ItemTorn(before, s.deploy, a.id, a.items[..k], item);
      if Goes(plan, OpenItem(item)) && Goes(plan, CopyItem(item)) {
        ItemsAt(SetItem(torn, item, From(a.id)), before, a, k + 1, plan);
      }
    }
  }

  lemma NothingCopied(tree: map<string, Part>, id: Id)
    ensures TreeIs(tree, tree, id, [], None)
  {
    forall item: string
      ensures ItemIs(tree, tree, id, [], None, item)
    {
    }
  }

  lemma KitTree(s: State, a: Request, plan: Plan)
    requires !s.online && a.id in s.releases
    ensures var o := KitCopied(s, a, plan);
            TreeAt(s.deploy, o.state.deploy, a.id, a.items, o.at)
  {
    DocsCopiedFacts(s, a.id, a.now, plan);
    var o := DocsCopied(s, a.id, a.now, plan);
    if o.at.None? {
      NothingCopied(s.deploy, a.id);
      assert a.items[..0] == [] && a.items[0..] == a.items;
      ItemsAt(o.state, s.deploy, a, 0, plan);
      ItemsCopiedFacts(o.state, a.id, a.items, plan);
      var p := ItemsCopied(o.state, a.id, a.items, plan);
      if p.at.None? { AssetsTree(p.state, a, plan); }
    }
  }

  lemma AssetsTree(s: State, a: Request, plan: Plan)
    requires !s.online && a.id in s.releases && s.releases[a.id].mtime == a.now
    ensures var o := AssetsKept(s, a.id, a.now, plan);
            o.state.deploy == s.deploy && (o.at.Some? ==> AssetsStep(o.at.value))
  {
    AssetsKeptFacts(s, a.id, a.now, plan);
  }

  lemma ChangedTreeAt(s: State, a: Request, plan: Plan)
    ensures TreeAt(s.deploy, Changed(s, a, plan).state.deploy, a.id, a.items, Changed(s, a, plan).at)
  {
    PreparedFacts(s, a, plan);
    PreparedSite(s, a, plan);
    var p := Prepared(s, a, plan);
    if p.at.None? { SwitchedTreeAt(p.state, a, plan); }
  }

  lemma SwitchedTreeAt(s: State, a: Request, plan: Plan)
    requires !s.online && a.id in s.releases
    ensures TreeAt(s.deploy, Switched(s, a, plan).state.deploy, a.id, a.items, Switched(s, a, plan).at)
  {
    KitTree(s, a, plan);
    KitCopiedFacts(s, a, plan);
    var p := KitCopied(s, a, plan);
    if p.at.None? {
      var q := Reached(p.state, Switch, plan);
      ReachedFacts(p.state, Switch, plan);
      if q.at.Some? {
        TreeStays(s.deploy, p.state.deploy, a.id, a.items, q.at);
      } else {
        var r := Landed(q.state, a.id, plan);
        LandedFacts(q.state, a.id, plan);
        TreeStays(s.deploy, p.state.deploy, a.id, a.items, r.at);
      }
    }
  }

  lemma TreeStays(before: map<string, Part>, after: map<string, Part>, id: Id, items: seq<string>, at: Option<Step>)
    requires TreeAt(before, after, id, items, None) && (at.Some? ==> at.value.Switch? || AfterSwitch(at.value))
    ensures TreeAt(before, after, id, items, at)
  {
  }

  /** Over every run that went past its backup: the deploy tree, item by item. */
  lemma TreeOfRun(s: State, e: End, t: Trace, a: Request, plan: Plan)
    requires IsRun(s, e, t, a, plan) && (e.exit.Upgraded? || (e.at.Some? && InBlock(e.at.value)))
    ensures TreeAt(s.deploy, e.state.deploy, a.id, a.items, e.at)
  {
    if e.exit.Upgraded? {
      UpgradedBlock(s, e, t, a, plan);
    } else {
      BlockOfRun(s, e, t, a, plan);
    }
    ChangedTreeAt(Mid(s, a, t, plan), a, plan);
  }

  lemma UpgradedBlock(s: State, e: End, t: Trace, a: Request, plan: Plan)
    requires IsRun(s, e, t, a, plan) && e.exit.Upgraded?
    ensures WentOn(s, a, t, plan) && OnlyBackups(s, Mid(s, a, t, plan)) && e.at.None?
    ensures var c := Changed(Mid(s, a, t, plan), a, plan); c.at.None? && OnlyEnd(c.state, e.state)
  {
    RunStart(s, e, t, a, plan);
    CarriedFacts(Mid(s, a, t, plan), a, t.dirs, plan);
  }

  // ---- the database

  /** The seed has been written. */
  predicate SeededBy(at: Option<Step>) {
    at.None? || at.value.Seed? || at.value.EndMaintenance? || at.value.StartServices? || at.value.HealthCheck?
  }

  function SeedAt(at: Option<Step>, id: Id): seq<Write> { if SeededBy(at) then [BySeed(id)] else [] }

  lemma MovedData(s: State, id: Id, plan: Plan)
    requires !s.online
    ensures var o := Moved(s, id, plan);
            o.state.db.data == s.db.data + SeedAt(o.at, id) && (o.at.Some? ==> o.at.value !in STARTING)
  {
    ReachedFacts(s, WriteConfig, plan);
    ReachedFacts(s, BeginMigrate, plan);
    ReachedFacts(s, RunMigrate, plan);
    var migrated := s.(db := s.db.(schema := Some(id)));
    ReachedFacts(migrated, ImportAssets, plan);
    ReachedFacts(migrated.(db := migrated.db.(data := s.db.data + [BySeed(id)])), Seed, plan);
    assert s.db.data + [] == s.db.data;
  }

  lemma LandedData(s: State, id: Id, plan: Plan)
    requires !s.online
    ensures var o := Landed(s, id, plan);
            o.state.db.data == s.db.data + (SeedAt(o.at, id) + Written(plan, Started(o.at)))
  {
    var r := Moved(s.(env := id), id, plan);
    MovedData(s.(env := id), id, plan);
    MovedFacts(s.(env := id), id, plan);
    if r.at.None? {
      CameBackFacts(r.state, plan);
      CameBackAt(r.state, plan);
      Assoc(s.db.data, [BySeed(id)], Written(plan, Started(CameBack(r.state, plan).at)));
    } else {
      assert SeedAt(r.at, id) + [] == SeedAt(r.at, id);
    }
  }

  lemma CameBackAt(s: State, plan: Plan)
    ensures SeededBy(CameBack(s, plan).at)
  {
  }

  /** What the block adds to the database, in order: what the application writes before it is
      stopped, the seed, and what it writes once it is started. */
  function BlockWrites(online: bool, taken: bool, a: Request, at: Option<Step>, plan: Plan): seq<Write> {
    (if online then Written(plan, UpTo(PrepSteps(taken), at)) else []) + (SeedAt(at, a.id) + Written(plan, LateOnline(at)))
  }

  lemma ChangedData(s: State, a: Request, plan: Plan)
    ensures var o := Changed(s, a, plan);
            o.state.db.data == s.db.data + BlockWrites(s.online, TakenAsIs(s.releases, a), a, o.at, plan)
  {
    PreparedData(s, a, plan);
    PreparedFacts(s, a, plan);
    var p, taken := Prepared(s, a, plan), TakenAsIs(s.releases, a);
    if p.at.Some? {
      PrepStepsAre(taken, p.at.value);
      NoLateWrites(s.online, taken, a, p.at, plan);
    } else {
      var o := Switched(p.state, a, plan);
      SwitchedData(p.state, a, plan);
      SwitchedSite(p.state, a, plan);
      PreparedSite(s, a, plan);
      PassedAll(taken, o.at);
      Assoc(s.db.data, if s.online then Written(plan, PrepSteps(taken)) else [], SeedAt(o.at, a.id) + Written(plan, LateOnline(o.at)));
    }
  }

  lemma PassedAll(taken: bool, at: Option<Step>)
    requires at.Some? ==> DownAt(at.value) || at.value.StartServices? || at.value.HealthCheck?
    ensures UpTo(PrepSteps(taken), at) == PrepSteps(taken)
  {
    UpToAll(PrepSteps(taken), at);
  }

  lemma NoLateWrites(online: bool, taken: bool, a: Request, at: Option<Step>, plan: Plan)
    requires at.Some? && UpToSwitch(at.value)
    ensures BlockWrites(online, taken, a, at, plan) == if online then Written(plan, UpTo(PrepSteps(taken), at)) else []
  {
    var passed: seq<Write> := if online then Written(plan, UpTo(PrepSteps(taken), at)) else [];
    assert SeedAt(at, a.id) == [] && LateOnline(at) == [];
    assert passed + ([] + []) == passed;
  }

  lemma PreparedData(s: State, a: Request, plan: Plan)
    ensures var o, steps := Prepared(s, a, plan), PrepSteps(TakenAsIs(s.releases, a));
            o.state.db.data == s.db.data + if s.online then Written(plan, if o.at.None? then steps else UpTo(steps, o.at)) else []
  {
    PreparedFacts(s, a, plan);
    UpToAll(PrepSteps(TakenAsIs(s.releases, a)), None);
    var none: seq<Write> := [];
    assert s.db.data + none == s.db.data;
  }

  lemma SwitchedData(s: State, a: Request, plan: Plan)
    requires !s.online && a.id in s.releases
    ensures var o := Switched(s, a, plan);
            o.state.db.data == s.db.data + (SeedAt(o.at, a.id) + Written(plan, LateOnline(o.at)))
  {
    KitCopiedFacts(s, a, plan);
    var p := KitCopied(s, a, plan);
    if p.at.Some? {
      NothingAdded(s.db.data, p.at, a.id, plan);
    } else {
      var q := Reached(p.state, Switch, plan);
      ReachedFacts(p.state, Switch, plan);
      if q.at.Some? {
        NothingAdded(s.db.data, q.at, a.id, plan);
      } else {
        LandedFacts(q.state, a.id, plan);
        LandedData(q.state, a.id, plan);
      }
    }
  }

  lemma NothingAdded(data: seq<Write>, at: Option<Step>, id: Id, plan: Plan)
    requires at.Some? && (KitStep(at.value) || at.value.Switch?)
    ensures data + (SeedAt(at, id) + Written(plan, LateOnline(at))) == data
  {
  }

  /** Over every run that went past its backup: the database at its end is the dump and then, in
      order, what the application wrote during the rest of the backup and before it was stopped,
      the seed, and what it wrote once it was started. An upgrade that went through adds only
      to that. */
  lemma DataOfRun(s: State, e: End, t: Trace, a: Request, plan: Plan)
    requires IsRun(s, e, t, a, plan) && (e.exit.Upgraded? || (e.at.Some? && InBlock(e.at.value)))
    ensures var kept := DumpOf(s, a, plan).data
              + ((if s.online then Written(plan, AfterDump(Asked(s, plan), a, t.sets, plan)) else [])
                 + BlockWrites(s.online, TakenAsIs(s.releases, a), a, e.at, plan));
            kept <= e.state.db.data && (e.exit.Upgraded? || e.state.db.data == kept)
  {
    if e.exit.Upgraded? {
      UpgradedBlock(s, e, t, a, plan);
    } else {
      BlockOfRun(s, e, t, a, plan);
    }
    MidData(s, e, t, a, plan);
    var m := Mid(s, a, t, plan);
    ChangedData(m, a, plan);
    Assoc(DumpOf(s, a, plan).data, if s.online then Written(plan, AfterDump(Asked(s, plan), a, t.sets, plan)) else [],
          BlockWrites(s.online, TakenAsIs(s.releases, a), a, e.at, plan));
  }

  lemma MidData(s: State, e: End, t: Trace, a: Request, plan: Plan)
    requires IsRun(s, e, t, a, plan) && WentOn(s, a, t, plan)
    ensures Mid(s, a, t, plan).db.data == DumpOf(s, a, plan).data
              + if s.online then Written(plan, AfterDump(Asked(s, plan), a, t.sets, plan)) else []
  {
    var asked := Asked(s, plan);
    ReachedFacts(s, Preflight, plan);
    BackedUpExactly(asked, a, t.sets, plan);
    var none: seq<Write> := [];
    assert DumpOf(s, a, plan).data + none == DumpOf(s, a, plan).data;
  }

  // ---- the backup sets

  /** Of a prune that broke off at a set: that one is what its removal left; the others are as
      they were, or gone, all their steps having gone through, because they were outdated. */
  predicate SetsBroken(before: Backups, after: Backups, x: int, a: Request, plan: Plan) {
    && after.Keys <= before.Keys && x in after && before[x].mtime < a.cutoff
    && after[x] == SetLeft(before[x], plan(RemoveSet(x)).left, a.now)
    && forall name :: name in before && name != x ==> SetKept(before, after, name, a, plan)
  }

  predicate SetKept(before: Backups, after: Backups, name: int, a: Request, plan: Plan)
    requires name in before
  {
    if name in after then after[name] == before[name] else before[name].mtime < a.cutoff && Goes(plan, RemoveSet(name))
  }

  lemma {:induction false} PruneBroken(s: State, sets: seq<int>, a: Request, plan: Plan)
    requires Distinct(sets) && SetsPruned(s, sets, a, plan).at.Some?
    ensures var o := SetsPruned(s, sets, a, plan);
            o.at.value.RemoveSet? && o.at.value.set_ in sets && SetsBroken(s.backups, o.state.backups, o.at.value.set_, a, plan)
    decreases |sets|
  {
    assert forall i :: 0 <= i < |sets[1..]| ==> sets[1..][i] == sets[i + 1] && sets[0] != sets[i + 1];
    if sets[0] !in s.backups || s.backups[sets[0]].mtime >= a.cutoff {
      PruneBroken(s, sets[1..], a, plan);
    } else {
      ReachedFacts(s, RemoveSet(sets[0]), plan);
      if Goes(plan, RemoveSet(sets[0])) {
        var next := Reached(s, RemoveSet(sets[0]), plan).state.(backups := s.backups - {sets[0]});
        PruneBroken(next, sets[1..], a, plan);
        BrokenLater(s.backups, SetsPruned(next, sets[1..], a, plan).state.backups, sets[0], SetsPruned(next, sets[1..], a, plan).at.value.set_, a, plan);
      }
    }
  }

  lemma BrokenLater(before: Backups, after: Backups, gone: int, x: int, a: Request, plan: Plan)
    requires gone in before && before[gone].mtime < a.cutoff && Goes(plan, RemoveSet(gone)) && gone != x
    requires SetsBroken(before - {gone}, after, x, a, plan)
    ensures SetsBroken(before, after, x, a, plan)
  {
    forall name | name in before && name != x
      ensures SetKept(before, after, name, a, plan)
    {
      if name != gone { assert SetKept(before - {gone}, after, name, a, plan); }
    }
  }

  /** The sets that a run leaves when it ends in its backup, by the step: none new until the dump
      is there; then one that does not count, one that counts and cannot be read, or the whole
      one with the prune broken off. */
  predicate SetsWhere(before: Backups, after: Backups, a: Request, dump: Db, x: Step, plan: Plan) {
    match x
    case OpenManifest => after == before[a.name := BackupDir(false, a.written, Saved(dump, true))]
    case WriteManifest => after == before[a.name := BackupDir(true, a.written, Saved(dump, false))]
    case RemoveSet(name) => SetsBroken(before[a.name := BackupDir(true, a.written, Saved(dump, true))], after, name, a, plan)
    case _ => after == before
  }

  lemma SetWrittenWhere(s: State, a: Request, plan: Plan)
    ensures var o := SetWritten(s, a, plan);
            o.at.Some? ==> SetsWhere(s.backups, o.state.backups, a, s.db, o.at.value, plan) && !o.at.value.RemoveSet?
  {
    var saved := Saved(s.db, true);
    var first := SetBackup(s, a.name, BackupDir(false, a.written, saved));
    ReachedFacts(first, OpenManifest, plan);
    var second := SetBackup(Reached(first, OpenManifest, plan).state, a.name, BackupDir(true, a.written, saved.(readable := false)));
    ReachedFacts(second, WriteManifest, plan);
  }

  lemma BackedUpWhere(s: State, a: Request, sets: seq<int>, plan: Plan)
    requires BackedUp(s, a, sets, plan).at.Some? && ListedSets(s, a, sets, plan)
    ensures var o := BackedUp(s, a, sets, plan);
            SetsWhere(s.backups, o.state.backups, a, Dumped(s, a, plan).state.db, o.at.value, plan)
  {
    DumpedFacts(s, a, plan);
    var d := Dumped(s, a, plan);
    if d.at.Some? {
      DumpedAt(s, a, plan);
    } else {
      SetWrittenFacts(d.state, a, plan);
      SetWrittenWhere(d.state, a, plan);
      var w := SetWritten(d.state, a, plan);
      if w.at.None? { PruneBroken(w.state, sets, a, plan); }
    }
  }

  lemma DumpedAt(s: State, a: Request, plan: Plan)
    ensures var at := Dumped(s, a, plan).at; at.Some? ==> at.value.MakeBackup? || at.value.Dump?
  {
  }

  /** Over every run that ends before the upgrade proper. */
  lemma SetsOfRun(s: State, e: End, t: Trace, a: Request, plan: Plan)
    requires IsRun(s, e, t, a, plan) && e.at.Some? && Early(e.at.value)
    ensures SetsWhere(s.backups, e.state.backups, a, DumpOf(s, a, plan), e.at.value, plan)
  {
    NotCarried(s, e, t, a, plan);
    ReachedFacts(s, Preflight, plan);
    if Goes(plan, Preflight) { BackedUpWhere(Asked(s, plan), a, t.sets, plan); }
  }

  lemma NotCarried(s: State, e: End, t: Trace, a: Request, plan: Plan)
    requires IsRun(s, e, t, a, plan) && e.at.Some? && Early(e.at.value)
    ensures !WentOn(s, a, t, plan)
  {
    if WentOn(s, a, t, plan) {
      RunStart(s, e, t, a, plan);
      ChangedSite(Mid(s, a, t, plan), a, plan);
      CarriedFacts(Mid(s, a, t, plan), a, t.dirs, plan);
      InBlockOnly(e.at.value);
    }
  }
}
