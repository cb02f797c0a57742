/** deploy/kit.py, what is kept and what is pruned: backup sets and release directories. */
module Retention {

  /** A listing of the items in ascending key order, each once: `sorted(..., key=...)`. */
  ghost predicate Listing<T(!new)>(xs: seq<T>, items: set<T>, key: map<T, int>) {
    && items <= key.Keys
    && (forall x :: x in xs <==> x in items)
    && (forall i, j :: 0 <= i < j < |xs| ==> xs[i] != xs[j])
    && (forall i, j :: 0 <= i < j < |xs| ==> xs[i] in key && xs[j] in key && key[xs[i]] <= key[xs[j]])
  }

  /** `sorted`: which of two items with equal keys comes first is not determined. */
  method Sorted<T(==, !new)>(items: set<T>, key: map<T, int>) returns (xs: seq<T>)
    requires items <= key.Keys
    ensures Listing(xs, items, key)
  {
    xs := [];
    var left := items;
    while left != {}
      invariant left <= items && Listing(xs, items - left, key)
      decreases left
    {
      var x :| x in left;
      xs := Insert(xs, x, items - left, key);
      left := left - {x};
      assert items - left == (items - (left + {x})) + {x};
    }
    assert items - left == items;
  }

  method Insert<T(==, !new)>(xs: seq<T>, x: T, ghost items: set<T>, key: map<T, int>) returns (ys: seq<T>)
    requires Listing(xs, items, key) && x in key && x !in items
    ensures Listing(ys, items + {x}, key)
  {
    var i := 0;
    while i < |xs| && key[xs[i]] <= key[x]
      invariant i <= |xs| && forall k :: 0 <= k < i ==> key[xs[k]] <= key[x]
    {
      i := i + 1;
    }
    ys := xs[..i] + [x] + xs[i..];
    InsertedHolds(xs, x, i);
    InsertedOrder(xs, x, i, items, key);
  }

  lemma InsertedHolds<T>(xs: seq<T>, x: T, i: nat)
    requires i <= |xs|
    ensures forall y :: y in xs[..i] + [x] + xs[i..] <==> y in xs || y == x
  {
  }

  lemma InsertedOrder<T(!new)>(xs: seq<T>, x: T, i: nat, items: set<T>, key: map<T, int>)
    requires Listing(xs, items, key) && x in key && x !in items && i <= |xs|
    requires forall k :: 0 <= k < i ==> key[xs[k]] <= key[x]
    requires i < |xs| ==> key[x] <= key[xs[i]]
    ensures var ys := xs[..i] + [x] + xs[i..];
            && (forall j, k :: 0 <= j < k < |ys| ==> ys[j] != ys[k])
            && (forall j, k :: 0 <= j < k < |ys| ==> ys[j] in key && ys[k] in key && key[ys[j]] <= key[ys[k]])
  {
  }

  // ---- backup sets

  /** A backup directory is a set once its manifest is written. Directories are known by
      their name, which begins with the time stamp; `taken` is what was backed up. */
  datatype BackupDir<D> = BackupDir(manifest: bool, mtime: int, taken: D)

  function Sets<D>(backups: map<int, BackupDir<D>>): set<int> {
    set name | name in backups && backups[name].manifest
  }

  predicate IsNewest<D>(backups: map<int, BackupDir<D>>, name: int) {
    name in Sets(backups) && forall other :: other in Sets(backups) ==> other <= name
  }

  /** What a prune at the cutoff leaves: everything but the outdated sets below the newest. */
  ghost function Pruned<D>(backups: map<int, BackupDir<D>>, cutoff: int): map<int, BackupDir<D>> {
    map name | name in backups && (!backups[name].manifest || IsNewest(backups, name) || backups[name].mtime >= cutoff)
      :: backups[name]
  }

  lemma {:induction false} GreatestOf(names: set<int>) returns (name: int)
    requires exists x :: x in names
    ensures name in names && forall other :: other in names ==> other <= name
    decreases names
  {
    name :| name in names;
    var rest := names - {name};
    assert forall x :: x in names <==> x == name || x in rest;
    if x :| x in rest {
      var best := GreatestOf(rest);
      if best > name { name := best; }
    }
  }

  /** Pruning keeps the newest set whatever its age, and takes only sets past retention. */
  lemma PruneKeeps<D>(backups: map<int, BackupDir<D>>, cutoff: int)
    ensures (exists name :: name in Sets(backups)) ==> exists name :: name in Sets(Pruned(backups, cutoff))
    ensures forall name :: IsNewest(backups, name) ==> IsNewest(Pruned(backups, cutoff), name)
    ensures forall name :: name in backups && name !in Pruned(backups, cutoff) ==>
              backups[name].manifest && backups[name].mtime < cutoff && exists newer :: newer in Sets(backups) && newer > name
  {
    if x :| x in Sets(backups) {
      var name := GreatestOf(Sets(backups));
      assert IsNewest(backups, name);
      assert name in Sets(Pruned(backups, cutoff));
    }
  }

  /** A prune that may have been stopped: it removed those of its sets that it reached. */
  ghost function PartlyPruned<D>(backups: map<int, BackupDir<D>>, cutoff: int, reached: set<int>): map<int, BackupDir<D>> {
    map name | name in backups && (name in Pruned(backups, cutoff) || name !in reached) :: backups[name]
  }

  lemma PartlyKeepsNewest<D>(backups: map<int, BackupDir<D>>, cutoff: int, reached: set<int>, name: int)
    requires IsNewest(backups, name)
    ensures IsNewest(PartlyPruned(backups, cutoff, reached), name)
  {
    assert name in Pruned(backups, cutoff);
  }

  /** A directory is made, with or without a manifest, or a prune goes as far as it gets. */
  datatype BackupOp<D> = Take(name: int, dir: BackupDir<D>) | Prune(cutoff: int, reached: set<int>)

  ghost function Apply<D>(backups: map<int, BackupDir<D>>, op: BackupOp<D>): map<int, BackupDir<D>> {
    match op
    case Take(name, dir) => if name in backups then backups else backups[name := dir]
    case Prune(cutoff, reached) => PartlyPruned(backups, cutoff, reached)
  }

  ghost function ApplyAll<D>(backups: map<int, BackupDir<D>>, ops: seq<BackupOp<D>>): map<int, BackupDir<D>>
    decreases |ops|
  {
    if ops == [] then backups else ApplyAll(Apply(backups, ops[0]), ops[1..])
  }

  /** Once there is a backup set there always is one, and the newest never gets older, prunes
      that stop half way included. */
  lemma {:induction false} AlwaysABackup<D>(backups: map<int, BackupDir<D>>, ops: seq<BackupOp<D>>, name: int)
    requires IsNewest(backups, name)
    ensures exists newest :: newest >= name && IsNewest(ApplyAll(backups, ops), newest)
    decreases |ops|
  {
    if ops == [] {
      assert IsNewest(ApplyAll(backups, ops), name);
    } else {
      var next := Apply(backups, ops[0]);
      var best := name;
      match ops[0] {
        case Prune(cutoff, reached) => PartlyKeepsNewest(backups, cutoff, reached, name);
        case Take(taken, dir) =>
          if taken !in backups && dir.manifest && taken > name { best := taken; }
          assert Sets(next) == if taken !in backups && dir.manifest then Sets(backups) + {taken} else Sets(backups);
      }
      assert IsNewest(next, best);
      AlwaysABackup(next, ops[1..], best);
      var newest :| newest >= best && IsNewest(ApplyAll(next, ops[1..]), newest);
      assert ApplyAll(backups, ops) == ApplyAll(next, ops[1..]);
    }
  }

  /** A set just taken survives its own prune exactly when it has the greatest name or was
      written within retention: a clock set back lets an older name be the greatest. */
  lemma TakenSurvives<D>(backups: map<int, BackupDir<D>>, name: int, dir: BackupDir<D>, cutoff: int)
    requires name !in backups && dir.manifest
    ensures name in Pruned(backups[name := dir], cutoff)
       <==> (forall other :: other in Sets(backups) ==> other <= name) || dir.mtime >= cutoff
  {
    var all := backups[name := dir];
    assert Sets(all) == Sets(backups) + {name};
  }

  // ---- release directories

  /** The release names a prune keeps: the first `keep` of the listing, newest first, and the
      current one. */
  function Kept<R>(dirs: seq<R>, keep: nat, current: R): set<R> {
    (set k | 0 <= k < |dirs| && k < keep :: dirs[k]) + (if current in dirs then {current} else {})
  }

  function Ages<R>(mtimes: map<R, int>): map<R, int> { map r | r in mtimes :: -mtimes[r] }

  /** The releases whose directory is newer, and the others that are not older. */
  function Newer<R>(mtimes: map<R, int>, r: R): set<R>
    requires r in mtimes
  {
    set q | q in mtimes && mtimes[q] > mtimes[r]
  }

  function NotOlder<R>(mtimes: map<R, int>, r: R): set<R>
    requires r in mtimes
  {
    set q | q in mtimes && q != r && mtimes[q] >= mtimes[r]
  }

  lemma {:induction false} PrefixSize<R>(dirs: seq<R>, p: nat)
    requires p <= |dirs| && forall i, j :: 0 <= i < j < |dirs| ==> dirs[i] != dirs[j]
    ensures |set k | 0 <= k < p :: dirs[k]| == p
  {
    if p > 0 {
      PrefixSize(dirs, p - 1);
      assert (set k | 0 <= k < p :: dirs[k]) == (set k | 0 <= k < p - 1 :: dirs[k]) + {dirs[p - 1]};
    }
  }

  lemma {:induction false} SubsetSize<R>(a: set<R>, b: set<R>)
    requires a <= b
    ensures |a| <= |b|
  {
    assert b == a + (b - a);
  }

  /** Where a release stands in the listing: after all newer ones, before all older ones. */
  lemma PlaceInListing<R(!new)>(dirs: seq<R>, mtimes: map<R, int>, p: nat)
    requires Listing(dirs, mtimes.Keys, Ages(mtimes)) && p < |dirs|
    ensures dirs[p] in mtimes && |Newer(mtimes, dirs[p])| <= p <= |NotOlder(mtimes, dirs[p])|
  {
    var key := Ages(mtimes);
    var before := set k | 0 <= k < p :: dirs[k];
    PrefixSize(dirs, p);
    assert forall i :: 0 <= i < |dirs| ==> dirs[i] in mtimes.Keys;
    forall q | q in Newer(mtimes, dirs[p])
      ensures q in before
    {
      var i :| 0 <= i < |dirs| && dirs[i] == q;
      assert key[dirs[i]] < key[dirs[p]];
      assert i < p;
    }
    SubsetSize(Newer(mtimes, dirs[p]), before);
    SubsetSize(before, NotOlder(mtimes, dirs[p]));
  }

  /** A release survives a prune when fewer than `keep` others are as new, and only when it is
      the current one or fewer than `keep` are newer; for times that differ that is exactly
      when, wherever the current release stands and however many are kept. */
  lemma KeptExactly<R(!new)>(dirs: seq<R>, mtimes: map<R, int>, keep: nat, current: R, r: R)
    requires Listing(dirs, mtimes.Keys, Ages(mtimes)) && current in mtimes && r in mtimes
    ensures r == current || |NotOlder(mtimes, r)| < keep ==> r in Kept(dirs, keep, current)
    ensures r in Kept(dirs, keep, current) ==> r == current || |Newer(mtimes, r)| < keep
    ensures (forall q :: q in mtimes && q != r ==> mtimes[q] != mtimes[r]) ==>
              (r in Kept(dirs, keep, current) <==> r == current || |Newer(mtimes, r)| < keep)
  {
    assert current in dirs && r in dirs;
    var p :| 0 <= p < |dirs| && dirs[p] == r;
    PlaceInListing(dirs, mtimes, p);
    if p < keep {
      assert dirs[p] in Kept(dirs, keep, current);
    }
    if forall q :: q in mtimes && q != r ==> mtimes[q] != mtimes[r] {
      assert NotOlder(mtimes, r) == Newer(mtimes, r);
    }
  }

  /** With `keep == 2` and distinct times, a release that is not the newest survives a prune
      after an upgrade to the newest exactly when it is the newest of the others. */
  lemma PreviousKept<R(!new)>(dirs: seq<R>, mtimes: map<R, int>, current: R, previous: R)
    requires Listing(dirs, mtimes.Keys, Ages(mtimes)) && current in mtimes && previous in mtimes && previous != current
    requires forall r :: r in mtimes && r != current ==> mtimes[r] < mtimes[current]
    requires forall r, q :: r in mtimes && q in mtimes && r != q ==> mtimes[r] != mtimes[q]
    ensures previous in Kept(dirs, 2, current)
       <==> forall r :: r in mtimes && r != current ==> mtimes[r] <= mtimes[previous]
  {
    KeptExactly(dirs, mtimes, 2, current, previous);
    FewNewer(mtimes, current, previous);
  }

  lemma FewNewer<R(!new)>(mtimes: map<R, int>, current: R, previous: R)
    requires current in mtimes && previous in mtimes && mtimes[previous] < mtimes[current]
    ensures |Newer(mtimes, previous)| < 2 <==> forall r :: r in mtimes && r != current ==> mtimes[r] <= mtimes[previous]
  {
    var others := Newer(mtimes, previous) - {current};
    assert current in Newer(mtimes, previous);
    assert |Newer(mtimes, previous)| == |others| + 1;
    assert forall r :: r in others <==> r in mtimes && r != current && mtimes[r] > mtimes[previous];
  }
}
