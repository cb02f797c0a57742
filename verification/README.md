# Deployment and tooling, modelled and proved

A Dafny 4.11 model of the deployment kit, the bundler, the demonstration scripts and the audit
tools of the Consilium repository, with proofs of what they promise. `dafny verify dfyconfig.toml`
checks everything. Nothing here executes the original programs.

| part | modules | what is proved |
|---|---|---|
| PDF 1.4 writer | `PdfSyntax`, `PdfFile`, `PdfPages`, `PdfReadBack`, `PdfTheorems`, `PdfGraph`, `PdfLayout` | a reader written from sections 7.3, 7.5 and 9.4 of ISO 32000-1 follows `startxref`, recovers every object and every page, and interprets each page's text operators: every text in its font, its size and its place; the object graph is well formed |
| OIDC provider | `Oidc`, `OidcTheorems`, `OidcProvider`, `OidcRequests` | every interleaving of any number of requests, one atomic step at a time, keeps the guarantees of sections 4.1.2 and 4.1.3 of RFC 6749; every answer and every event goes back to what its own request carried |
| upgrade, backup, pruning | `Lifecycle`, `LifecycleHost`, `LifecycleTheorems`, `LifecycleRuns`, `LifecycleWhere`, `Retention` | every step may fail, the run may stop anywhere and the application writes while it is up; the way back stays open, the rollback restores exactly under stated conditions, and what a run leaves is known for each step at which it may end |
| templates, restore, checksums | `Rendering`, `Restore`, `Checksums` | sequential replacement against simultaneous substitution, other signs in the text included; which backup file is which; the checksum file read back |
| coverage workbook | `Cells`, `Tiling`, `Tables`, `TablePrinting`, `LineForms`, `Documents`, `Inheritance`, `Rows` | the cell splitter inverts the natural printer; the kinds of line told apart exactly; whole documents of headings, tables and code blocks read back; exactly what in-place passes carry along references |
| offline bundle | `Packages`, `CrossBuild`, `Closure` | the loop driven by pip's answers; the dependency closure |
| contrast checker | `Chains`, `Resolve` | the variable resolver against the chain of references |
| demonstration data | `Savepoints`, `DemoRun` | nested savepoints as nested transactions; what a whole run leaves |
| Windows audit | `Auditor`, `AuditForms`, `AuditPaths` | the visitor with its guard counter against a meaning built from the leaves up, and that against the ways from the root and the forms of the nodes |

`Text` holds what all of them share: decimal numbers, padding, joining, replacing, Python's line
breaks and white space.

Code that changes things step by step is modelled as methods with loops, or as a class with fields
where the source has an object (`LifecycleHost.Host`, `OidcProvider.Provider`, `Rows.Row`,
`Savepoints.Db`, `Auditor.Visitor`). Each such method is proved equal to a specification function,
and the promises are lemmas about that function. What the source gets from elsewhere is a parameter
or a free choice: pip's answers, the framework's work, secrets, digests, which steps fail and where
a run stops, what the application writes while an upgrade is on its way, and the clock, which may
stand still, run or be set forward and back.

## Where the code and its promises part

Each of these is stated with its exact condition, or with inputs that show it.

- A `/userinfo` answer can come later than CODE_TTL + TOKEN_TTL = 720 seconds after the
  authorisation: the token request reads the clock twice, for the code's expiry and for the
  token's own, and it may pause or the clock be set in between. `OidcTheorems.BoundIsExact`: a
  bound holds for all runs in which those two readings are at most `p` apart exactly when it is
  at least 720 + `p`.
- `prune_releases` says that the release before the current one is kept. It keeps the newest by
  modification time, and every upgrade gives the directory of its release a new one.
  `Retention.KeptExactly` says exactly what a prune keeps and `LifecycleRuns.WhatIsPruned` what an
  upgrade leaves. `LifecycleRuns.RunningReleasePruned`: a failed upgrade, its rollback, and an upgrade
  to a third release remove the release that was in use all the time, and that the last rollback
  text names; `LifecycleRuns.LoseItToALeftover`: so does one upgrade to a release left over, beside a
  newer failed attempt. `LifecycleRuns.StoppedInPrune` says what is left of the old release when the
  run stops inside its prune.
- A backup set just taken can be removed by its own prune when its name is not the greatest (the
  clock was set back) and it is past retention: `Retention.TakenSurvives`. The guarantees about
  the pre-upgrade backup carry that condition (`LifecycleTheorems.Survives`).
- The rollback that a failed upgrade prints says that database and code both go back. It runs
  `deploy/restore.sh`, which runs `kit.py` beside it; `copy_kit` replaces both in place; and
  `cmd_restore` refuses a provisioned database. `LifecycleRuns.RollbackExactly`: the old release is
  installed again exactly when both files are whole, the backup outlived its prune, the login is the
  superuser's and the restore goes through, or when the restore did not come to dropping a database
  that the upgrade had not begun to migrate. `LifecycleRuns.TornKit` and
  `LifecycleRuns.ProvisionedStaysMigrated` are two failures.
- The application runs until step 3/7, and the backup is step 1/7. `LifecycleRuns.RestoreLoses`: a
  restore loses what the application wrote at the steps that the run came to after its dump with
  services up, and so nothing of it exactly when it wrote nothing at any of these.
- An upgrade that failed after its switch and is tried again has nothing to do, and says so with
  exit code 0, whether the database was migrated or not: `LifecycleRuns.RetryDoesNothing`.
- `install_python_env` writes its marker before it checks the log for network access, and looks for
  nothing but the marker. An environment that failed the check, or whose removal broke off before
  it came to the marker, is taken as it is at the next attempt: `LifecycleRuns.RetrySkipsTheCheck`,
  `LifecycleRuns.HalfRemovedIsTaken`. `copy_kit` does the same with assets caught half copied:
  `LifecycleRuns.RetryKeepsTornAssets`. `LifecycleRuns.FailedWhere` and
  `LifecycleRuns.UpgradedIsInstalled` say exactly when what an upgrade leaves is whole and checked.
- `--force` on the release in use removes its environment while it is in use:
  `LifecycleRuns.ReinstallInPlace`.
- `installed.json` and `BACKUP.json` are written in place. Cut off there, a run leaves a truncated
  history, after which no upgrade comes to its end (`LifecycleRuns.CutInRecord`,
  `LifecycleRuns.TruncatedStays`), or a set that counts and cannot be restored
  (`LifecycleRuns.CutInManifest`); `LifecycleRuns.ReadableLeft` says when a run leaves one that can.
- `render_text`: a literal between two placeholders that spells a key, or begins with one and a
  sign, is taken for a placeholder when its key comes before its neighbours'.
  `Rendering.ReplaceIsFill` and `Rendering.AgreesExactly` say exactly when that happens;
  `Rendering.OrderMatters` is `@A@B@C@`.
- `cmd_restore`: a second private archive before every public one lands in the public slot:
  `Restore.PublicIsPrivate`, exactly then.
- `build_pdf`: with no pages both fonts are unreachable (`PdfGraph.AllReachable`); an entry
  is readable exactly when its offset has at most ten digits (`PdfFile.XrefEntryReads`); a carriage return
  does not survive a conforming reader (`PdfTheorems.PdfRoundTripExact`).
- What is known of every other line, name and layout is in the same form: `LineForms.HeadingExactly`,
  `LineForms.SeparatorExactly`, `Resolve.FallbackExactly` and `AuditForms.GivesExactly` say exactly which
  texts are taken for what, and `PdfLayout.LayoutRoundTrip` where each text stands on its page.
- `split_row` inverts the printer exactly when cells are trimmed and every cell but the last has
  an even number of backticks (`Cells.RowRoundTrip`), and a printed table is read back from its text
  exactly when besides no cell holds a line break (`TablePrinting.TableRoundTrip`).
- Two passes of inheritance are not always enough: `Inheritance.ThreeAreNotCovered`.
  `Inheritance.PassesExactly` says exactly what k passes in place carry, and
  `Inheritance.EnoughExactly` for which references they are enough; one pass is when rows refer only
  to rows before them (`Inheritance.BackwardArrives`).
- `collect_dependency_wheels` moves the first line with the refused name, which need not be the
  line that has no wheel: `CrossBuild.SettlesExactly` and `CrossBuild.StayingIsHaving`.
- `verify_closure` compares the size of the set of messages with that of the set of specifiers, so
  an absent dependency that two wheels ask for, or one wheel in two forms (with different extras or
  markers), stops the build although it could be fetched: `Closure.SharedAbsenceStops`;
  `Closure.FetchableSize` is the exact condition.
- `resolve` reports a name met twice as circular, although with an undefined name the chain may
  end: `Resolve.RefusedThoughItEnds`. `Resolve.ResolvedCircular`: the chain goes on for ever exactly
  when it meets a defined name twice.
- A unit with a step that sets `demo_section` again would keep, when it fails, what it had changed
  before: `DemoRun.ReusedNameKeeps`, for `DemoRun.RunUnit` on any such unit. The theorems about whole
  runs ask that no step does, and none in the repository does.
- The visitor of the Windows audit does not look into the test of an `if`, so that
  `if os.geteuid(): ...` is not reported: `Auditor.OsTestMissed`. `Auditor.FindsExactly`: it finds
  everything that is there exactly when no such test gives rise to anything.

## Model

| member | source | states |
|---|---|---|
| PdfSyntax.PdfTextIsEscape | deploy/demo_additions/handling.py:87-88 | the three replacements one after the other equal one single-pass escape, for every text |
| PdfSyntax.ReadEscaped | deploy/demo_additions/handling.py:87-88 | a literal-string reader with octal codes, continuation lines and nested parentheses stops at the writer's own closing parenthesis and returns the text with line ends normalised |
| PdfSyntax.NormalEolIdentity | deploy/demo_additions/handling.py:87-88 | that is the text itself exactly when it holds no carriage return |
| PdfSyntax.ReadShownDict | deploy/demo_additions/handling.py:106-125 | every printed dictionary is read back, and the reader stops at its end |
| PdfPages.BuildContent | deploy/demo_additions/handling.py:111-116 | the loop over the lines builds the page's content stream |
| PdfPages.Latin1Content | deploy/demo_additions/handling.py:116 | a content stream can be encoded exactly when the page's own texts are Latin-1 |
| PdfPages.AddPages | deploy/demo_additions/handling.py:109-121 | content and page objects in order, with the numbers of the page objects; fails exactly when a page is not Latin-1 |
| PdfPages.AssembleObjects | deploy/demo_additions/handling.py:97-125 | the object table after both entries are back-patched |
| PdfPages.EmitObjects | deploy/demo_additions/handling.py:127-131 | the emitted bytes, and for each object the byte count before it |
| PdfPages.EmitXref | deploy/demo_additions/handling.py:133-135 | the cross-reference table of these offsets |
| PdfPages.BuildPdf | deploy/demo_additions/handling.py:91-137 | the whole file, or the encoding error, exactly when some character of a page's texts is above 255 |
| PdfPages.RefusedExactly | deploy/demo_additions/handling.py:116 | what cannot be encoded is a page with a character above 255 in its title or a line |
| PdfFile.OffsetLands | deploy/demo_additions/handling.py:127-131 | each recorded offset lands on `n 0 obj`, exactly that object and `endobj`, whatever follows |
| PdfFile.XrefEntryReads | deploy/demo_additions/handling.py:134-135 | an entry is 20 bytes and read back as its offset exactly when the offset is below 10^10 |
| PdfFile.ReadXrefOf | deploy/demo_additions/handling.py:132-135 | the reader finds the table and reads every entry exactly when all offsets fit |
| PdfFile.FindXrefOf | deploy/demo_additions/handling.py:136 | the reader finds the number after `startxref`, read from the end of the file |
| PdfFile.ReadFileOf | deploy/demo_additions/handling.py:127-137 | following `startxref` recovers the root and every object exactly when all offsets fit, and nothing otherwise |
| PdfFile.ShortFileFits | deploy/demo_additions/handling.py:129-135 | offsets fit in every file of at most 10^10 bytes |
| PdfReadBack.BodiesPrintValues | deploy/demo_additions/handling.py:104-125 | the objects the source writes as text are the printed forms of the intended dictionaries and streams |
| PdfTheorems.ShownContent | deploy/demo_additions/handling.py:111-116 | the texts shown by a content stream are the title, the lines in order and the page number, no more |
| PdfTheorems.PdfRoundTrip | deploy/demo_additions/handling.py:91-137 | a reader of catalog, page tree and content streams gets every page back, line ends normalised, exactly when the offsets fit |
| PdfTheorems.PdfRoundTripExact | deploy/demo_additions/handling.py:91-137 | it gets the very pages exactly when besides no text holds a carriage return |
| PdfLayout.TokensOf | deploy/demo_additions/handling.py:111-116 | a content stream printed token by token is read token by token, literals with their line ends normalised |
| PdfLayout.ContentTokens | deploy/demo_additions/handling.py:111-116 | a page's stream, byte for byte, is read as its operators and operands |
| PdfLayout.DrawContent | deploy/demo_additions/handling.py:111-116 | an interpreter of BT, ET, Tf, TL, Td, T* and Tj, with every text object closed before the next, shows the title, the lines one under the other and the page number, each in its font, size and place |
| PdfLayout.FontsOf | deploy/demo_additions/handling.py:104-121 | the fonts named on a page are Helvetica and Helvetica-Bold |
| PdfLayout.LayoutRoundTrip | deploy/demo_additions/handling.py:91-137 | from the bytes of the whole file: every page is a sheet of 595 by 842 points, the title in bold 16 points at (56, 780), line k in 11 points at (56, 748 - 15 k), the page number in 9 points at (56, 40), exactly when the offsets fit |
| PdfGraph.PageTreeOf | deploy/demo_additions/handling.py:109-125 | `/Kids` lists the page objects in order with the right `/Count`; each page's `/Parent` is the tree and each `/Length` its stream's byte count |
| PdfGraph.RefsInRange | deploy/demo_additions/handling.py:104-125 | every reference names an object of the file |
| PdfGraph.AllReachable | deploy/demo_additions/handling.py:104-125 | every object is reachable from `/Root` exactly when there is a page |
| Oidc.RunKeeps | scripts/mock_oidc_provider.py:95-158 | the invariant over tables, threads and log survives every action of every run |
| OidcTheorems.LogsAreLegal | scripts/mock_oidc_provider.py:95-158 | in every run each event was allowed by those before it |
| OidcTheorems.OneTokenPerCode | scripts/mock_oidc_provider.py:149-155 | each code yields at most one access token and each token is minted once, under any interleaving |
| OidcTheorems.OneRedemptionPerCode | scripts/mock_oidc_provider.py:149 | no two requests take the same code out of the table |
| OidcTheorems.MintTraced | scripts/mock_oidc_provider.py:105-107 | behind each token stand one issue and one redemption of its code, in that order, for the same redirect address, client and known person, in time |
| OidcTheorems.WrongRedirectSpends | scripts/mock_oidc_provider.py:149-153 | a code presented with another redirect address never yields a token anywhere in the run |
| OidcTheorems.SpentForGood | scripts/mock_oidc_provider.py:149 | a code once redeemed is in no later state of any continuation |
| OidcTheorems.ServedTraced | scripts/mock_oidc_provider.py:115-130 | each answer goes back to one authorisation of the same person, redeemed and exchanged in order, within 720 seconds and what lies between the two clock readings of the token request, however the clock is set |
| OidcTheorems.ServedInTime | scripts/mock_oidc_provider.py:150-155 | within 720 seconds when the second reading is no later than the first |
| OidcTheorems.BoundIsExact | scripts/mock_oidc_provider.py:150-155 | a bound holds of all runs whose two readings are at most p apart exactly when it is at least 720 + p, for every p |
| OidcTheorems.PauseBreaksTheBound | scripts/mock_oidc_provider.py:150-155 | a run for each pause that serves exactly that much after 720 seconds |
| OidcTheorems.ClientAlwaysMatches | scripts/mock_oidc_provider.py:152 | the comparison of clients at the exchange never fails in any run |
| OidcRequests.AnswersFit | scripts/mock_oidc_provider.py:81-158 | in every run each answer is what its request asks for: which person /authorize signs in, with a hint, an empty one or an unknown one; a token only for the configured id, secret and grant type, and the right refusal for any other |
| OidcRequests.EventTraced | scripts/mock_oidc_provider.py:95-158 | in every run each event was written by a step of one request whose fields it fits, redemptions and tokens by requests that carried the client's id, secret and grant type; its times are that request's own clock readings |
| OidcRequests.UnentitledTouchNothing | scripts/mock_oidc_provider.py:144-148 | in every run no step of a token request with another id, secret or grant type changes a table |
| OidcRequests.TablesAreTheLog | scripts/mock_oidc_provider.py:105-158 | in every run the codes that stand are those issued and not redeemed, the tokens those minted, with the times given to them |
| OidcProvider.Provider.GetAuthorize | scripts/mock_oidc_provider.py:95-114 | a redirect for the person hinted at, or the default one without a hint, exactly when client, type, address and person are right, with the code in the table for 120 seconds; otherwise the first thing wrong is answered and nothing changes |
| OidcProvider.Provider.PostToken | scripts/mock_oidc_provider.py:133-158 | a token for 600 seconds exactly when client id, secret, grant type, code, time and address are right; a wrong id, secret or grant type is answered 401 or 400 and both tables stay; otherwise the code is gone whatever else is wrong |
| OidcProvider.Provider.GetUserInfo | scripts/mock_oidc_provider.py:115-130 | the person exactly when the token is known and in time; nothing changes |
| OidcProvider.RequestAlone | scripts/mock_oidc_provider.py:81-158 | the handlers are the threads of the interleaved model when nobody interrupts them |
| OidcProvider.SignIn | scripts/mock_oidc_provider.py:81-158 | a sign-in by the rules and in time serves the person authorised, and the same code again is refused |
| Retention.Sorted | deploy/kit.py:1376-1377 | a listing of exactly the items, each once, in key order, ties in any order |
| Retention.PruneKeeps | deploy/kit.py:1628-1638 | a prune keeps the greatest-named set whatever its age and removes only sets past retention with a later set |
| Retention.AlwaysABackup | deploy/kit.py:1596-1638 | over any sequence of backups and prunes, those that stop half way included, there is always a set, and the greatest name never decreases |
| Retention.TakenSurvives | deploy/kit.py:1621-1638 | a set just taken survives its own prune exactly when its name is the greatest or it is within retention |
| Retention.KeptExactly | deploy/kit.py:1374-1381 | with distinct times a release stays exactly when it is the current one or fewer than `keep` are newer; with equal times the same up to those as new |
| Retention.PreviousKept | deploy/kit.py:1371-1381 | two are kept: after an upgrade to the newest, a previous release survives exactly when it is the newest of the others |
| LifecycleHost.Host.PruneBackups | deploy/kit.py:1628-1638 | the loop over the sets in name order, stopped at any removal and with what that leaves |
| LifecycleTheorems.OutdatedIsPruned | deploy/kit.py:1632-1638 | the loop removes exactly the outdated sets but the newest |
| LifecycleHost.Host.DoBackup | deploy/kit.py:1596-1625 | the directory, the dump, the manifest written in place, the prune |
| LifecycleTheorems.BackedUpExactly | deploy/kit.py:1596-1625 | a backup that went through is the database as dumped, beside the pruned others, and what the application wrote meanwhile came after it |
| LifecycleHost.Host.InstallPythonEnv | deploy/kit.py:785-815 | the environment at every step: taken when marked, otherwise half removed, partial, marked unchecked, or checked |
| LifecycleTheorems.EnvInstalledRelease | deploy/kit.py:785-858 | only this release changes; what was marked complete stays as it was, checked or not; a failed check leaves it marked complete |
| LifecycleHost.Host.CopyKit | deploy/kit.py:892-921 | documents, items and assets one by one, each untouched, torn or new, assets only when their directory is not there; the release directory's new time |
| LifecycleRuns.TreeIsOldOrNew | deploy/kit.py:908-916 | wherever a run ends each item is as it was or new and one at most is torn; none once the link has moved |
| LifecycleHost.Host.Change | deploy/kit.py:1541-1574 | steps 2/7 to 7/7, for every behaviour of each |
| LifecycleTheorems.ChangedDb | deploy/kit.py:1541-1574 | the database only grows, by the seed and exactly what the application writes at the steps come to with services up |
| LifecycleHost.Host.PruneReleases | deploy/kit.py:1371-1381 | the loop over the listing after the first `keep`, the release in use passed over, errors ignored, stopped at any removal |
| LifecycleTheorems.ReleasePruned | deploy/kit.py:1379-1381 | each release is untouched, gone, or what its removal left, by whether the loop came to it |
| LifecycleHost.Host.Upgrade | deploy/kit.py:1514-1593 | a run of the upgrade for every behaviour of its steps and of the application |
| LifecycleRuns.DumpComesFirst | deploy/kit.py:1526-1528 | the dump is the database at the start with what the application wrote until then, and all later writes come after it |
| LifecycleRuns.NothingBeforeBackup | deploy/kit.py:1514-1528 | before a complete backup nothing changes but by the application; that backup is there exactly when it outlives its prune, and is the dump; there is nothing to do exactly for the release in use without `--force` |
| LifecycleRuns.HowItEnds | deploy/kit.py:1541-1579 | each way of ending, at a step that did not go: refused before the try block, failed within it, stopped anywhere |
| LifecycleRuns.FailedWhere | deploy/kit.py:1541-1579 | a failed run is at the old release with the database not migrated, or at the new one with its directory and the deploy tree done, the assets whole exactly when they were not torn before, and the schema that its step says; a copy that failed left its item torn |
| LifecycleRuns.WayBackIntact | deploy/kit.py:1530-1590 | unless the run came to its prune, the other releases are untouched; the record gains at most the upgrade or is truncated, and only at the end |
| LifecycleRuns.StoppedInPrune | deploy/kit.py:1379-1381 | at a stop inside the prune the old release is as it was when it is among the two newest or was not come to, and otherwise gone or what its removal left |
| LifecycleRuns.UpgradedIsInstalled | deploy/kit.py:1541-1593 | on success the new release is in use on a database of its schema; it is installed exactly when its environment was not taken half removed, and checked exactly when it was built now or had passed before; its assets are whole exactly when they were not torn before |
| LifecycleRuns.WhatIsPruned | deploy/kit.py:1371-1381 | which releases an upgrade leaves, by how many are newer, the one upgraded to counted with its new time |
| LifecycleRuns.LinkIsWhole | deploy/kit.py:874-889 | wherever a run ends the link names the old release, untouched, or the new one, whole exactly when it was not taken half removed |
| LifecycleRuns.NeverRemoved | deploy/kit.py:1371-1381 | over any sequence of upgrades and rollbacks, wherever they end, the release in use is never removed |
| LifecycleRuns.AlwaysWhole | deploy/kit.py:1514-1593 | and it is always whole, when none in use is reinstalled in place and no removal that breaks off leaves its marker |
| LifecycleWhere.SiteOfRun | deploy/kit.py:1541-1574 | over every run, by the step at which it ended: in maintenance and down from the first copy to the end of maintenance, up and out of it after that, and before it as it was |
| LifecycleWhere.ReleaseOfRun | deploy/kit.py:785-921 | over every run that ends inside the upgrade, the release's environment, marker, check, assets and time, by the step; every other release as it was |
| LifecycleWhere.TreeOfRun | deploy/kit.py:892-921 | over every run past its backup, the deploy tree item by item, by the step |
| LifecycleWhere.DataOfRun | deploy/kit.py:1541-1574 | over every run past its backup, the database is the dump and then, in order, what the application wrote and the seed, by the step |
| LifecycleWhere.SetsOfRun | deploy/kit.py:1596-1625 | over every run that ends in its backup, the sets it leaves, by the step |
| LifecycleWhere.PruneBroken | deploy/kit.py:1628-1638 | a prune that broke off at a set leaves that one as its removal did and every other as it was or gone |
| LifecycleWhere.WhatIsLeft | deploy/kit.py:1379-1381 | what a removal that breaks off leaves of a release |
| LifecycleWhere.WhatIsLeftOfSet | deploy/kit.py:1634-1638 | what a removal that breaks off leaves of a backup set |
| LifecycleRuns.ReinstallInPlace | deploy/kit.py:793-794 | a forced reinstallation of the release in use that breaks off leaves it and the rollback without a whole release |
| LifecycleHost.Host.Rollback | deploy/kit.py:1531-1540 | the printed commands: link, restore and services, and how the restore ended |
| LifecycleWhere.RollbackEnds | deploy/kit.py:1649-1736 | how a restore ends, for each cause in the order in which it comes to it |
| LifecycleWhere.SiteRolledBack | deploy/kit.py:1531-1736 | after any failed upgrade and its rollback services are up; maintenance is lifted exactly when the restore went through, kept when it broke off, and as the failed step left it when it did not begin |
| LifecycleRuns.RollbackExactly | deploy/kit.py:1531-1736 | after any failed upgrade to another release and its rollback: link and old release are back; the old release is installed, and the database the one dumped, exactly under the conditions on deploy tree, backup, login, restore steps and the step that failed |
| LifecycleRuns.RestoreLoses | deploy/kit.py:1526-1551 | of what the application wrote a restore loses exactly what it wrote at these steps of the run, so nothing exactly when it wrote nothing at any |
| LifecycleRuns.TornKit | deploy/kit.py:908-916 | every run whose one fault is the copy of kit.py ends failed, with restore.sh whole and no rollback possible |
| LifecycleRuns.ProvisionedStaysMigrated | deploy/kit.py:1689-1693 | with a provisioned database, every run whose one fault is the health check is rolled back to the old link over the migrated database |
| LifecycleRuns.RetryDoesNothing | deploy/kit.py:1522-1525 | a run that failed after its switch, tried again, has nothing to do; the release is installed exactly when the database came to its schema and its environment is whole |
| LifecycleRuns.RetrySkipsTheCheck | deploy/kit.py:790-814 | an environment that failed the network check is taken unchecked by the next attempt |
| LifecycleRuns.HalfRemovedIsTaken | deploy/kit.py:788-794 | an environment whose removal broke off before its marker is taken as it is by the next attempt |
| LifecycleRuns.RetryKeepsTornAssets | deploy/kit.py:917-920 | assets caught half copied stay so in every later run for that release that comes past its switch |
| LifecycleRuns.CutInRecord | deploy/kit.py:1352-1360 | a run cut off while it writes the history truncates it, with the new release in use |
| LifecycleRuns.TruncatedStays | deploy/kit.py:1352-1360 | once it is truncated no upgrade comes to its end, and nothing is pruned |
| LifecycleRuns.CutInManifest | deploy/kit.py:1621 | a run cut off while it writes the manifest leaves a set that counts and cannot be restored, and the others as they were |
| LifecycleRuns.ReadableLeft | deploy/kit.py:1621-1638 | a run past its backup leaves a set that can be restored exactly when its own outlives the prune, or the newest before it can be read, or another within retention |
| LifecycleRuns.RunningReleasePruned | deploy/kit.py:1374-1381 | after a failed upgrade, its rollback and an upgrade to a third release, the release that was in use is gone |
| LifecycleRuns.LoseTheRunningRelease | deploy/kit.py:1374-1381 | the same run carried out on an installation |
| LifecycleRuns.LoseItToALeftover | deploy/kit.py:894-898 | one upgrade to a release left over, beside a newer failed attempt, carried out: the release that was in use is gone |
| LifecycleHost.Host.UpgradeOrRollBack | deploy/kit.py:1575-1579 | an upgrade and, exactly when it failed, the rollback printed |
| Rendering.RenderText | deploy/kit.py:1217-1231 | the template's lines, those for the socket server with it alone, sequential replacements, and failure exactly when a placeholder is left |
| Rendering.MarkedOne | deploy/kit.py:1219-1224 | a line for the socket server stays without its mark when it is on and goes when it is off; any other stays as it is |
| Rendering.MarkedJoin | deploy/kit.py:1219-1224 | line after line |
| Rendering.KeyChars | deploy/kit.py:1228 | what may stand between the signs of a placeholder |
| Rendering.ReplaceIsFill | deploy/kit.py:1226-1227 | one replacement fills its placeholders and nothing else exactly when no literal is trapped |
| Rendering.AgreesExactly | deploy/kit.py:1226-1227 | the text agrees with simultaneous substitution after every key exactly when no literal is trapped at its turn |
| Rendering.SeparatedIsClean | deploy/kit.py:1226-1227 | no literal is ever trapped when after each placeholder comes a character that no key can hold before the next sign |
| Rendering.TemplateOfText | deploy/kit.py:1217-1231 | every text in which no two signs stand side by side is the text of a template these theorems are about |
| Rendering.WorkersLine | deploy/service/systemd/consilium-worker@.service:2 | the line with two signs of no placeholder may stand in any template |
| Rendering.RenderExact | deploy/kit.py:1226-1231 | then rendering is the simultaneous substitution and succeeds exactly when every placeholder has a value; the signs left belong to no placeholder |
| Rendering.AnyOrder | deploy/kit.py:1226-1227 | between separated placeholders the order of the keys does not matter |
| Rendering.OrderMatters | deploy/kit.py:1226-1227 | the template `@A@B@C@`, where it does |
| Restore.Classify | deploy/kit.py:1666-1674 | each slot holds the first name with its end, the public one not counting the private slot's; refused exactly without a configuration |
| Restore.PublicIsPrivate | deploy/kit.py:1666-1671 | the public slot holds a private archive exactly when a second one precedes every public one |
| Restore.OnePrivateIsEnough | deploy/kit.py:1666-1671 | with one private archive at most, a public archive is found whenever there is one |
| Checksums.BuildManifest | deploy/make_bundle.py:542-550 | one entry for each file, in order, with its digest |
| Checksums.Verify | deploy/kit.py:638-662 | counts the files, or reports the first ten that are missing or differ |
| Checksums.ParseLineExactly | deploy/kit.py:647 | a line is cut at its first two blanks; without them all of it is the digest |
| Checksums.LineAlone | deploy/kit.py:644-647 | a blank line gives nothing, any other one entry |
| Checksums.LinesJoin | deploy/kit.py:644-647 | line after line, blank ones passed over |
| Checksums.ProblemAlone | deploy/kit.py:650-657 | an entry is reported as missing without its file and as a mismatch with another digest, and not otherwise |
| Checksums.ProblemsJoin | deploy/kit.py:650-657 | what is reported is reported entry by entry, in order |
| Checksums.SumsRoundTrip | deploy/make_bundle.py:655-657 | what the bundler writes is what the installer reads exactly when no path holds a line break |
| Checksums.NoProblems | deploy/kit.py:638-662 | no problem is found exactly when every listed file is present with its digest |
| Checksums.AcceptsExactly | deploy/kit.py:638-662 | a tree is accepted against another's checksums exactly when each recorded file is present with the same digest |
| Cells.SplitRow | scripts/coverage_to_xlsx.py:156-179 | the index loop computes the specified cells |
| Cells.ScanCell | scripts/coverage_to_xlsx.py:164-177 | an escaped cell is read back as it was, backslashes, pipes and code spans included, from either span state |
| Cells.RowRoundTrip | scripts/coverage_to_xlsx.py:156-179 | splitting undoes printing exactly when the cells are trimmed and all but the last close their code spans |
| Cells.SplitIsStable | scripts/coverage_to_xlsx.py:156-179 | whatever the row, the cells found are trimmed, and printing and splitting them again gives the same exactly when their spans are closed |
| Tables.ParseTables | scripts/coverage_to_xlsx.py:204-238 | the loop always advances, ends, and returns the specified tables |
| Tables.ParseRows | scripts/coverage_to_xlsx.py:228-232 | a maximal run of row lines, with their line numbers |
| Tables.TablesAreAll | scripts/coverage_to_xlsx.py:204-238 | the tables are those at starting lines that cover every header outside fences, ordered and disjoint, and there is only one such list of lines |
| Tables.TablesOneWay | scripts/coverage_to_xlsx.py:226-236 | two lists of starting lines with these properties are equal |
| Tables.PathIsAbove | scripts/coverage_to_xlsx.py:219-223 | the pruned heading dictionary is what a scan upwards taking ever smaller levels finds |
| Tables.TableSkipped | scripts/coverage_to_xlsx.py:226-236 | jumping over a table misses no fence and no heading |
| TablePrinting.SeparatorRead | scripts/coverage_to_xlsx.py:182-183 | a printed separator row of any width is recognised |
| TablePrinting.TableRoundTrip | scripts/coverage_to_xlsx.py:204-238 | the text of a printed table is read as that one table exactly when every row and the header is trimmed, closes its spans and holds no line break |
| LineForms.FenceExactly | scripts/coverage_to_xlsx.py:212 | a fence is blanks, three backticks and anything |
| LineForms.HeadingExactly | scripts/coverage_to_xlsx.py:219-223 | a heading is one to six signs, which are its level, at least one blank, and the title; every other line is none |
| LineForms.NoHeading | scripts/coverage_to_xlsx.py:219-223 | a line is no heading exactly when it has none of these forms |
| LineForms.SeparatorExactly | scripts/coverage_to_xlsx.py:182-183 | a separator is cells of two dashes or more, each with a colon at either end or not, joined by pipes |
| LineForms.InFenceExactly | scripts/coverage_to_xlsx.py:212-218 | a line stands in a fence exactly when an odd number of fences stands above it |
| LineForms.NoneInFence | scripts/coverage_to_xlsx.py:204-238 | no table between two fence lines is found |
| Documents.PathIsOpen | scripts/coverage_to_xlsx.py:219-223 | what the dictionary holds, in level order, is the titles of the headings that none of the same or a higher rank has closed |
| Documents.HeadingsOfTable | scripts/coverage_to_xlsx.py:219-235 | each table found carries the titles of the headings above it that are still open, outermost first, and the last of them |
| Documents.DocumentRoundTrip | scripts/coverage_to_xlsx.py:204-238 | the text of a document of nested headings, tables and code blocks is read back as its tables, each with its cells, its line numbers and the titles over it, what stands in code left out |
| Inheritance.PassesGrow | scripts/coverage_to_xlsx.py:1195-1201 | after any number of passes a row's own entries stay in front, and nothing is repeated that was not |
| Inheritance.ExtendOrder | scripts/coverage_to_xlsx.py:1201 | what is new to a row stands behind what was there, in the order in which it first comes |
| Inheritance.DeferredIsBrought | scripts/coverage_to_xlsx.py:1197-1201 | reference after reference a row takes over the same as all that they bring at once, in their order, and no other row changes |
| Inheritance.PassesExactly | scripts/coverage_to_xlsx.py:1195-1201 | after k passes in place a row holds exactly the entries that arrive there: over rows before it in the same pass, over rows after it one pass later |
| Inheritance.EnoughExactly | scripts/coverage_to_xlsx.py:1194-1201 | k passes give every row all that its references lead to, whatever the rows hold, exactly when everything referred to arrives in k passes |
| Inheritance.BackwardArrives | scripts/coverage_to_xlsx.py:1195-1201 | one pass carries everything when rows refer only to rows before them |
| Inheritance.PassesCover | scripts/coverage_to_xlsx.py:1195-1201 | k passes cover k references, whatever the order of the rows |
| Inheritance.PassesTraced | scripts/coverage_to_xlsx.py:1195-1201 | a row gains only entries of rows it leads to |
| Inheritance.SettledIsClosure | scripts/coverage_to_xlsx.py:1195-1201 | once a pass changes nothing, a row holds exactly what the rows it leads to held |
| Inheritance.ThreeAreNotCovered | scripts/coverage_to_xlsx.py:1194-1201 | four rows in a chain where two passes leave an entry out and three do not |
| Inheritance.TestsPassesFill | scripts/coverage_to_xlsx.py:1202-1205 | cited tests that were there stay as they were |
| Inheritance.TestsPassesExactly | scripts/coverage_to_xlsx.py:1202-1205 | after k passes a row has tests exactly when those of some row arrive there |
| Inheritance.TestsPassesCover | scripts/coverage_to_xlsx.py:1202-1205 | after k passes a row has tests if a row within k references had some |
| Inheritance.TestsPassesCopied | scripts/coverage_to_xlsx.py:1202-1205 | a row's tests are those of one row it leads to |
| Inheritance.TestsOfFirst | scripts/coverage_to_xlsx.py:1202-1205 | a row without tests takes those of the first of its references that has some |
| Rows.Row.Extend | scripts/coverage_to_xlsx.py:1200-1201 | the lazy `extend` on each of the three lists, testing against what it has taken already |
| Rows.OnePass | scripts/coverage_to_xlsx.py:1196-1205 | one pass over the row objects in place |
| Rows.Inherit | scripts/coverage_to_xlsx.py:1194-1205 | the four lists of every row object after both passes are those of the specification |
| Packages.CanonicalTwice | deploy/make_bundle.py:217-218 | a canonical name is its own canonical name |
| Packages.CanonicalExactly | deploy/make_bundle.py:217-218 | a name is words with runs of `-`, `_` and `.` between them, and its canonical form those words in lower case joined by single dashes |
| Packages.RequirementNameOf | deploy/make_bundle.py:213-214 | the name of a requirement is what stands before the first version sign, bracket, marker or blank |
| Text.LowerLetters | deploy/make_bundle.py:218 | lower case turns the 26 capital letters into their own and leaves every other character as it is |
| Text.LowerJoin | deploy/make_bundle.py:218 | character by character |
| CrossBuild.Settle | deploy/make_bundle.py:291-314 | at most one request more than requirements, the last one fetched exactly the pending lines, and "could not settle" is never reached, whatever pip answers |
| CrossBuild.SettledTraced | deploy/make_bundle.py:294-314 | request after request, whatever pip answers: each but the last is refused for want of one name, whose first line is moved over; the last has everything, or says something else, or names what is not in the list |
| CrossBuild.SettledKeeps | deploy/make_bundle.py:291-312 | pending and build-here together are the requirements, as a multiset, whatever pip answers |
| CrossBuild.SettlesExactly | deploy/make_bundle.py:291-312 | with a truthful pip the loop settles, and a line is built here exactly when it or a later line of its name has no wheel |
| CrossBuild.StayingIsHaving | deploy/make_bundle.py:307-312 | those downloaded are the lines with a wheel exactly when none of these precedes a line of its name without one |
| Closure.Scan | deploy/make_bundle.py:402-427 | both sets, by nested loops over the wheels and the texts of their requirements |
| Closure.NoGapsIsClosed | deploy/make_bundle.py:402-427 | nothing is missing exactly when every applicable dependency of every wheel outside NO_DEPS is present at a version that meets its specifier |
| Closure.VerifyClosure | deploy/make_bundle.py:429-449 | the run, scan by scan: each but the last asked for more and got it, the last ends it, and after five it gives up; it returns only with a closed wheelhouse, at once and unchanged when it is closed already |
| Closure.JudgeMeans | deploy/make_bundle.py:429-437 | a scan goes on to a download exactly when the wheelhouse is open, fetching is allowed, and only absent dependencies are missing, each asked for once; and asks for exactly those |
| Closure.RanOnce | deploy/make_bundle.py:429-445 | two runs over the same wheelhouse with the same downloads are one |
| Closure.FetchableSize | deploy/make_bundle.py:434 | the sizes compared are equal exactly when all gaps are absent dependencies and no two different requirement texts or owners come to one name and specifier |
| Closure.FirstScan | deploy/make_bundle.py:430-442 | what the first scan decides, in every case |
| Closure.SharedAbsenceStops | deploy/make_bundle.py:434-436 | two wheels with the same absent dependency, or one wheel with two forms of it, stop the build whatever could be fetched |
| Chains.SuccessExactly | scripts/check_contrast.py:108-120 | a value is returned exactly when the chain of references ends there with no name twice, and it is no reference |
| Chains.CircularMeans | scripts/check_contrast.py:114-115 | a report names exactly the first name met twice; an endless chain is always reported; the chain is endless exactly when a defined name is met twice |
| Chains.ChainExactly | scripts/check_contrast.py:108-120 | every result is that of the one chain without a repeated name: a defined name leads to its token, whatever the fallback, an undefined one to its fallback; it ends in a value, in a name met before, or in an undefined one without a fallback |
| Resolve.ResolvedExactly | scripts/check_contrast.py:108-120 | the same for the concrete form of references |
| Resolve.ResolvedCircular | scripts/check_contrast.py:114-115 | the same for the concrete form of references |
| Resolve.ResolvedChain | scripts/check_contrast.py:108-120 | the same for the concrete form of references |
| Resolve.PlainExactly | scripts/check_contrast.py:110-113 | read as a name without a fallback exactly when written `var(name)`, with blanks anywhere around |
| Resolve.FallbackExactly | scripts/check_contrast.py:110-113 | read as a name with a fallback exactly when written `var(name, fallback)` on one line, with blanks anywhere around; everything else is a literal |
| Resolve.ParseWritten | scripts/check_contrast.py:110-113 | a reference written with a fallback is read as written, fallbacks with references and parentheses included |
| Resolve.RefusedThoughItEnds | scripts/check_contrast.py:114-119 | every undefined name nested in its own fallback is refused although the chain ends in a literal |
| Savepoints.Db.RollbackTo | deploy/demo_data.py:3631-3637 | the latest savepoint of the name comes back, later ones are gone, it stays |
| Savepoints.Exec | deploy/demo_additions/escalation_w3.py:349-361 | what work with named savepoints does to the database, whatever the names; what was committed is untouched |
| Savepoints.MachineMeans | deploy/demo_additions/escalation_w3.py:349-361 | when no step sets its own savepoint again within itself, named savepoints mean nested transactions, and the stack only grows |
| Savepoints.MeaningOne | deploy/demo_additions/escalation_w3.py:349-361 | work has its effect and may raise; a note is added; a step has its effect or leaves the state as it was, its failure noted |
| Savepoints.MeaningJoin | deploy/demo_additions/escalation_w3.py:349-361 | one body after another: the second runs where the first left off, if that did not raise |
| Savepoints.ExecStep | deploy/demo_additions/escalation_w3.py:353-360 | a step that raises goes back to the latest savepoint of its name, and leaves a note |
| DemoRun.RunUnit | deploy/demo_data.py:3634-3645 | a failing unit goes back to the latest `demo_section` and commits nothing; when its names nest it leaves the database as it was |
| DemoRun.RunScript | deploy/demo_data.py:3629-3725 | the turns are all sections, the stamping, all additions but those whose name begins with `_`, and the sweep, in this order, with `--only` those named alone and always the stamping and the sweep; the final database is the plain fold of exactly those that do not fail, unchanged after a dry run; the failures are those that fail, in order, and the exit code is 1 exactly when there are any |
| DemoRun.AllAreDue | deploy/demo_data.py:3630-3665 | without `--only` those due are all sections, and all additions when no name begins with `_` |
| DemoRun.FoldIsOfSucceeded | deploy/demo_data.py:3630-3687 | the fold is that of exactly the units that did not fail, run without any savepoints |
| DemoRun.NotesApart | deploy/demo_additions/escalation_w3.py:351-361 | what work does to the database and whether it raises do not depend on the notes |
| DemoRun.RaisingStepUndoesAddition | deploy/demo_data.py:3675-3684 | one caught step that raises undoes its whole addition |
| DemoRun.ReusedNameKeeps | deploy/demo_data.py:3634-3637 | every unit that changes something, sets the outer savepoint again in a step and then raises keeps the change, whatever the step did |
| Auditor.Visitor.Visit | scripts/audit_windows_compat.py:175-277 | the findings are those of the meaning in its order, downgraded and marked once exactly when a guard stands around them; the counter ends where it started |
| Auditor.Visitor.VisitIf | scripts/audit_windows_compat.py:192-197 | both branches are guarded by a platform test, which is not visited |
| Auditor.Visitor.VisitTry | scripts/audit_windows_compat.py:199-219 | the body alone is guarded by handlers of import and OS errors |
| Auditor.BlockersShow | scripts/audit_windows_compat.py:182-190 | a blocker is reported as one exactly when no guard stands around it |
| Auditor.Audit | scripts/audit_windows_compat.py:298-365 | the exit code is 1 exactly when some file holds an unguarded blocker |
| Auditor.FindsExactly | scripts/audit_windows_compat.py:175-277 | what is found is all that the nodes give rise to, in order, exactly when no test of an `if` that is come to gives rise to anything |
| AuditPaths.FoundExactly | scripts/audit_windows_compat.py:175-277 | found is exactly what stands at a node the visitor comes to, with as many guards around it as nodes on the way from the root guard the next |
| AuditPaths.BlocksExactly | scripts/audit_windows_compat.py:182-190 | a file blocks exactly when such a node gives rise to a blocker and nothing on the way guards |
| AuditPaths.PlatformTestExactly | scripts/audit_windows_compat.py:143-163 | a test guards exactly when a name or an attribute of the platform stands somewhere within it |
| AuditPaths.HandlesExactly | scripts/audit_windows_compat.py:199-214 | handlers guard exactly when one of them catches an import or OS error, by itself or in a tuple |
| AuditForms.GivesExactly | scripts/audit_windows_compat.py:222-277 | what each kind of node gives rise to, with its severity, category and detail; every other kind gives rise to nothing |
| AuditForms.BaseExactly | scripts/audit_windows_compat.py:265 | the program named is what follows the last slash |
| AuditForms.FirstWordExactly | scripts/audit_windows_compat.py:259 | or the first word of the text, blanks before it apart |
| AuditForms.ReportExactly | scripts/audit_windows_compat.py:182-190 | a run reports exactly what the nodes it comes to give rise to, downgraded and marked once when any guard stands on the way |
| Auditor.OsTestMissed | scripts/audit_windows_compat.py:192-197 | an unguarded use of any listed POSIX function in the test of an `if` is not found |

## Left out

- DemoRun.RunScript: asks that no step sets the outer savepoint or, within a step, that step's own; `ReusedNameKeeps` shows why. What a unit of other names leaves is said of the unit alone (`DemoRun.Left`).
- Rendering.RenderExact: asks that no literal is trapped at any turn; a later key may undo an earlier false match, so for the final text alone this is sufficient and not necessary. Values hold no sign that could be taken for a placeholder's.
- Rendering.RenderText: the names of the placeholders left over are not part of the error.
- Checksums.Verify: digests are an abstract function and contents are texts; decoding is not modelled.
- LifecycleHost.Host.Upgrade: backup names are ordered numbers; unpacking and preflight are one step; the refusal of an env that is no link is not modelled; a dump that breaks off leaves no set; all that a run does to directories happens at one time; the documents and their link are copied but not followed.
- LifecycleRuns.AlwaysWhole: asks that no release in use is reinstalled in place and that no removal leaves a marker behind; `ReinstallInPlace` and `HalfRemovedIsTaken` show why.
- LifecycleHost.Host.StopApplication: services that systemd does not manage are taken to be stopped by whoever runs the upgrade, as its message asks.
- LifecycleHost.Host.Rollback: a database that a restore lost is described by its missing schema alone; maintenance mode is taken to be set and lifted as asked; the encryption key, the uploaded files and the checksums are not modelled but for the step that checks them.
- Rows.Inherit: row objects have lists of their own; the one list that all rows share when there is no code index is always empty.
- Tables.ParseTables: `clean` is a parameter.
- Resolve.ResolvedExactly: names hold ASCII letters, digits, dashes and underscores; letters of other scripts in names are not modelled.
- Auditor.Visitor.Visit: the tables of POSIX names are parameters, and the quoting of a path inside a message is simplified.
- Oidc.RunKeeps: addresses are lower-cased for A to Z only; the redirect is its parts, not its URL encoding, and the token form has its client credentials already taken from the header or the body.
- CrossBuild.Settle: building the remaining wheels and the check that they run on any platform are not modelled.
- The brace scanner `blocks`, colours, luminance and ratios of scripts/check_contrast.py.
- `Config.load`, installation, service units, web configuration, health checks, and `cmd_restore` into a site beside the installed one.
- The rest of scripts/coverage_to_xlsx.py: requirement parsing, the code index, styling and the workbook.
- Directory walking and parsing of Python source in the audit; its trees are given.
- `_quarter` and the weekend shifting of deploy/demo_data.py: easy arithmetic on dates.
- The demonstration data themselves, and the governance engines they call, which are not part of this model.
