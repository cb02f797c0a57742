/** deploy/make_bundle.py, `verify_closure`: every dependency of every wheel is in the
    wheelhouse, for the target. */
module Closure {
  import opened Text
  import opened Packages

  /** What `Requirement` makes of a requirement's text: the name, the specifier, and what the
      marker evaluates to for the first and for a late patch release of the target's Python. */
  datatype Req = Req(name: string, spec: string, marker: Option<(bool, bool)>)

  type Reading = string -> Req

  /** `requires_` are the texts of the `Requires-Dist` lines, extras and markers included, in
      the form in which a requirement prints. */
  datatype Wheel = Wheel(name: string, version: string, requires_: seq<string>)

  const NO_DEPS: set<string> := {"frappe", "consilium", "winbench"}

  /** A message of the scan: it holds the whole text of the requirement and who asks. */
  datatype Gap =
    | Absent(text: string, owner: string)
    | Unfit(text: string, owner: string, have: string)

  /** Which versions meet a specifier. */
  type Meets = (string, string) -> bool

  predicate Applies(req: Req) { req.marker.None? || req.marker.value.0 || req.marker.value.1 }

  /** The versions by canonical name: of wheels of one name the last listed counts. */
  function Available(wheels: seq<Wheel>): map<string, string> {
    if wheels == [] then map[] else
      var last := wheels[|wheels| - 1];
      Available(wheels[..|wheels| - 1])[Canonical(last.name) := last.version]
  }

  function GapOf(text: string, owner: string, available: map<string, string>, read: Reading, meets: Meets): Option<Gap> {
    var req := read(text);
    if !Applies(req) then None
    else if Canonical(req.name) !in available then Some(Absent(text, owner))
    else
      var have := available[Canonical(req.name)];
      if req.spec != "" && !meets(req.spec, have) then Some(Unfit(text, owner, have)) else None
  }

  // ---- closed

  /** The dependency is there at a version that meets its specifier. */
  ghost predicate Present(req: Req, wheels: seq<Wheel>, meets: Meets) {
    exists i :: 0 <= i < |wheels| && Canonical(wheels[i].name) == Canonical(req.name)
      && (req.spec == "" || meets(req.spec, wheels[i].version)) && IsLast(wheels, i)
  }

  /** No later wheel has the same name. */
  ghost predicate IsLast(wheels: seq<Wheel>, i: nat)
    requires i < |wheels|
  {
    forall j :: i < j < |wheels| ==> Canonical(wheels[j].name) != Canonical(wheels[i].name)
  }

  ghost predicate Closed(wheels: seq<Wheel>, read: Reading, meets: Meets) {
    forall i, j :: 0 <= i < |wheels| && 0 <= j < |wheels[i].requires_| ==> Met(wheels, i, j, read, meets)
  }

  ghost predicate Met(wheels: seq<Wheel>, i: nat, j: nat, read: Reading, meets: Meets)
    requires i < |wheels| && j < |wheels[i].requires_|
  {
    var req := read(wheels[i].requires_[j]);
    Canonical(wheels[i].name) in {"frappe", "consilium", "winbench"} || !Applies(req) || Present(req, wheels, meets)
  }

  lemma {:induction false} AvailableIsLast(wheels: seq<Wheel>, name: string)
    ensures name in Available(wheels) <==> exists i :: 0 <= i < |wheels| && Canonical(wheels[i].name) == name && IsLast(wheels, i)
    ensures forall i :: (0 <= i < |wheels| && Canonical(wheels[i].name) == name && IsLast(wheels, i)
      ==> name in Available(wheels) && Available(wheels)[name] == wheels[i].version)
  {
    if wheels != [] {
      var n := |wheels| - 1;
      var init := wheels[..n];
      AvailableIsLast(init, name);
      assert IsLast(wheels, n);
      if Canonical(wheels[n].name) != name {
        forall i | 0 <= i < n && Canonical(wheels[i].name) == name
          ensures IsLast(wheels, i) <==> IsLast(init, i)
        {
          assert forall j :: 0 <= j < n ==> init[j] == wheels[j];
        }
      }
    }
  }

  /** A dependency has no gap exactly when it does not apply or is present. */
  lemma NoGap(text: string, owner: string, wheels: seq<Wheel>, read: Reading, meets: Meets)
    ensures GapOf(text, owner, Available(wheels), read, meets) == None <==> !Applies(read(text)) || Present(read(text), wheels, meets)
  {
    AvailableIsLast(wheels, Canonical(read(text).name));
  }

  // ---- the scan

  function GapsOf(reqs: seq<string>, owner: string, available: map<string, string>, read: Reading, meets: Meets): set<Gap> {
    if reqs == [] then {} else
      var n := |reqs| - 1;
      var gap := GapOf(reqs[n], owner, available, read, meets);
      GapsOf(reqs[..n], owner, available, read, meets) + (if gap.Some? then {gap.value} else {})
  }

  function Gaps(wheels: seq<Wheel>, available: map<string, string>, read: Reading, meets: Meets): set<Gap> {
    if wheels == [] then {} else
      var n := |wheels| - 1;
      Gaps(wheels[..n], available, read, meets)
      + (if Canonical(wheels[n].name) in NO_DEPS then {} else GapsOf(wheels[n].requires_, wheels[n].name, available, read, meets))
  }

  /** What pip is asked to fetch for a gap: the name and the specifier only. */
  function SpecOf(gap: Gap, read: Reading): string { read(gap.text).name + read(gap.text).spec }

  function Fetchable(gaps: set<Gap>, read: Reading): set<string> { set g | g in gaps && g.Absent? :: SpecOf(g, read) }

  /** `missing` and `fetchable`, without repetitions. */
  method Scan(wheels: seq<Wheel>, read: Reading, meets: Meets) returns (missing: set<Gap>, fetchable: set<string>)
    ensures missing == Gaps(wheels, Available(wheels), read, meets) && fetchable == Fetchable(missing, read)
  {
    var available := map[];
    for i := 0 to |wheels|
      invariant available == Available(wheels[..i])
    {
      assert wheels[..i + 1][..i] == wheels[..i];
      available := available[Canonical(wheels[i].name) := wheels[i].version];
    }
    assert wheels[..|wheels|] == wheels;
    missing, fetchable := {}, {};
    for i := 0 to |wheels|
      invariant missing == Gaps(wheels[..i], available, read, meets) && fetchable == Fetchable(missing, read)
    {
      var wheel := wheels[i];
      assert wheels[..i + 1][..i] == wheels[..i];
      if Canonical(wheel.name) in NO_DEPS {
        continue;
      }
      var more, specs := ScanWheel(wheel, available, read, meets);
      missing, fetchable := missing + more, fetchable + specs;
    }
  }

  method ScanWheel(wheel: Wheel, available: map<string, string>, read: Reading, meets: Meets) returns (missing: set<Gap>, fetchable: set<string>)
    ensures missing == GapsOf(wheel.requires_, wheel.name, available, read, meets) && fetchable == Fetchable(missing, read)
  {
    missing, fetchable := {}, {};
    var reqs := wheel.requires_;
    for i := 0 to |reqs|
      invariant missing == GapsOf(reqs[..i], wheel.name, available, read, meets) && fetchable == Fetchable(missing, read)
    {
      var req := read(reqs[i]);
      assert reqs[..i + 1][..i] == reqs[..i];
      if !Applies(req) {
        continue;
      }
      if Canonical(req.name) !in available {
        missing, fetchable := missing + {Absent(reqs[i], wheel.name)}, fetchable + {req.name + req.spec};
      } else if req.spec != "" && !meets(req.spec, available[Canonical(req.name)]) {
        missing := missing + {Unfit(reqs[i], wheel.name, available[Canonical(req.name)])};
      }
    }
    assert reqs[..|reqs|] == reqs;
  }

  // ---- what the scan finds

  /** Someone outside NO_DEPS asks for this and does not get it. */
  ghost predicate Asked(wheels: seq<Wheel>, available: map<string, string>, read: Reading, meets: Meets, gap: Gap) {
    exists i :: 0 <= i < |wheels| && Canonical(wheels[i].name) !in NO_DEPS
      && AskedBy(wheels[i].requires_, wheels[i].name, available, read, meets, gap)
  }

  ghost predicate AskedBy(reqs: seq<string>, owner: string, available: map<string, string>, read: Reading, meets: Meets, gap: Gap) {
    exists j :: 0 <= j < |reqs| && GapOf(reqs[j], owner, available, read, meets) == Some(gap)
  }

  lemma {:induction false} GapsOfHolds(reqs: seq<string>, owner: string, available: map<string, string>, read: Reading, meets: Meets, gap: Gap)
    ensures gap in GapsOf(reqs, owner, available, read, meets) <==> AskedBy(reqs, owner, available, read, meets, gap)
  {
    if reqs != [] {
      var n := |reqs| - 1;
      GapsOfHolds(reqs[..n], owner, available, read, meets, gap);
      assert reqs == reqs[..n] + [reqs[n]];
    }
  }

  lemma {:induction false} GapsHold(wheels: seq<Wheel>, available: map<string, string>, read: Reading, meets: Meets, gap: Gap)
    ensures gap in Gaps(wheels, available, read, meets) <==> Asked(wheels, available, read, meets, gap)
  {
    if wheels != [] {
      var n := |wheels| - 1;
      GapsHold(wheels[..n], available, read, meets, gap);
      GapsOfHolds(wheels[n].requires_, wheels[n].name, available, read, meets, gap);
      assert wheels == wheels[..n] + [wheels[n]];
    }
  }

  /** Nothing is missing exactly when the wheelhouse is closed. */
  lemma NoGapsIsClosed(wheels: seq<Wheel>, read: Reading, meets: Meets)
    ensures Gaps(wheels, Available(wheels), read, meets) == {} <==> Closed(wheels, read, meets)
  {
    var available := Available(wheels);
    if Gaps(wheels, available, read, meets) == {} {
      forall i, j | 0 <= i < |wheels| && 0 <= j < |wheels[i].requires_|
        ensures Met(wheels, i, j, read, meets)
      {
        NoGapMet(wheels, i, j, read, meets);
      }
    }
    if Closed(wheels, read, meets) {
      forall gap
        ensures gap !in Gaps(wheels, available, read, meets)
      {
        GapsHold(wheels, available, read, meets, gap);
        NotAsked(wheels, read, meets, gap);
      }
    }
  }

  lemma NoGapMet(wheels: seq<Wheel>, i: nat, j: nat, read: Reading, meets: Meets)
    requires i < |wheels| && j < |wheels[i].requires_| && Gaps(wheels, Available(wheels), read, meets) == {}
    ensures Met(wheels, i, j, read, meets)
  {
    var gap := GapOf(wheels[i].requires_[j], wheels[i].name, Available(wheels), read, meets);
    NoGap(wheels[i].requires_[j], wheels[i].name, wheels, read, meets);
    if gap.Some? {
      GapsHold(wheels, Available(wheels), read, meets, gap.value);
    }
  }

  lemma NotAsked(wheels: seq<Wheel>, read: Reading, meets: Meets, gap: Gap)
    requires Closed(wheels, read, meets)
    ensures !Asked(wheels, Available(wheels), read, meets, gap)
  {
    forall i, j | 0 <= i < |wheels| && Canonical(wheels[i].name) !in NO_DEPS && 0 <= j < |wheels[i].requires_|
      ensures GapOf(wheels[i].requires_[j], wheels[i].name, Available(wheels), read, meets) == None
    {
      assert Met(wheels, i, j, read, meets);
      NoGap(wheels[i].requires_[j], wheels[i].name, wheels, read, meets);
    }
  }

  // ---- when what is missing is fetched

  /** Only absent dependencies, and no two different texts or owners ask for the same name
      and specifier. */
  ghost predicate AskedOnce(gaps: set<Gap>, read: Reading) {
    (forall g :: g in gaps ==> g.Absent?) && forall g, h :: g in gaps && h in gaps && SpecOf(g, read) == SpecOf(h, read) ==> g == h
  }

  lemma {:induction false} FetchableSize(gaps: set<Gap>, read: Reading)
    ensures |Fetchable(gaps, read)| <= |gaps|
    ensures |Fetchable(gaps, read)| == |gaps| <==> AskedOnce(gaps, read)
    decreases |gaps|
  {
    if g :| g in gaps {
      var rest := gaps - {g};
      FetchableSize(rest, read);
      FetchableOne(gaps, read, g);
      AskedOnceOne(gaps, read, g);
    }
  }

  lemma FetchableOne(gaps: set<Gap>, read: Reading, g: Gap)
    requires g in gaps
    ensures Fetchable(gaps, read) == Fetchable(gaps - {g}, read) + (if g.Absent? then {SpecOf(g, read)} else {})
  {
  }

  lemma AskedOnceOne(gaps: set<Gap>, read: Reading, g: Gap)
    requires g in gaps
    ensures AskedOnce(gaps, read) <==> AskedOnce(gaps - {g}, read) && g.Absent? && SpecOf(g, read) !in Fetchable(gaps - {g}, read)
  {
  }

  // ---- the rounds

  /** What the wheelhouse holds after a download, or that it failed: anything at all. */
  type Fetch = (nat, seq<Wheel>, set<string>) -> Option<seq<Wheel>>

  datatype Error = Lacking(gaps: set<Gap>) | DownloadFailed | Incomplete

  datatype Done = Done(wheels: seq<Wheel>, added: seq<set<string>>)

  const ROUNDS: nat := 5

  /** What a scan comes to: nothing is missing; the build stops; or this is fetched. */
  datatype Verdict = Shut | Refused(gaps: set<Gap>) | Ask(specs: set<string>)

  type Judge = seq<Wheel> -> Verdict

  function VerdictOf(wheels: seq<Wheel>, may: bool, read: Reading, meets: Meets): Verdict {
    var missing := Gaps(wheels, Available(wheels), read, meets);
    if missing == {} then Shut
    else if may && |Fetchable(missing, read)| == |missing| then Ask(Fetchable(missing, read))
    else Refused(missing)
  }

  function JudgeOf(may: bool, read: Reading, meets: Meets): Judge {
    (wheels: seq<Wheel>) => VerdictOf(wheels, may, read, meets)
  }

  /** A scan goes on to a fetch exactly when the wheelhouse is open, fetching is allowed, and only
      absent dependencies are missing, each asked for once. */
  lemma JudgeMeans(wheels: seq<Wheel>, may: bool, read: Reading, meets: Meets)
    ensures var missing, verdict := Gaps(wheels, Available(wheels), read, meets), JudgeOf(may, read, meets)(wheels);
            && (verdict.Shut? <==> Closed(wheels, read, meets))
            && (verdict.Ask? <==> !Closed(wheels, read, meets) && may && AskedOnce(missing, read))
            && (verdict.Ask? ==> verdict.specs == Fetchable(missing, read)) && (verdict.Refused? ==> verdict.gaps == missing)
  {
    NoGapsIsClosed(wheels, read, meets);
    FetchableSize(Gaps(wheels, Available(wheels), read, meets), read);
  }

  /** The scan after fetch k asked for more and got it. */
  predicate WentOn(judge: Judge, held: seq<seq<Wheel>>, k: nat, fetch: Fetch)
    requires k + 1 < |held|
  {
    judge(held[k]).Ask? && fetch(k, held[k], judge(held[k]).specs) == Some(held[k + 1])
  }

  predicate AllWentOn(judge: Judge, held: seq<seq<Wheel>>, fetch: Fetch) {
    forall k :: 0 <= k < |held| - 1 ==> WentOn(judge, held, k, fetch)
  }

  /** The downloads that are reported are those the scans asked for, in order. */
  predicate Reported(judge: Judge, held: seq<seq<Wheel>>, added: seq<set<string>>) {
    |added| + 1 == |held| && forall k :: 0 <= k < |added| ==> judge(held[k]) == Ask(added[k])
  }

  /** How it ends with the last contents of the wheelhouse. */
  predicate EndsWith(judge: Judge, held: seq<seq<Wheel>>, r: Result<Done, Error>, fetch: Fetch)
    requires held != []
  {
    var n, last := |held| - 1, held[|held| - 1];
    if n == 5 then r == Failure(Incomplete)
    else match judge(last)
      case Shut => r.Success? && r.value.wheels == last && Reported(judge, held, r.value.added)
      case Refused(gaps) => r == Failure(Lacking(gaps))
      case Ask(specs) => fetch(n, last, specs) == None && r == Failure(DownloadFailed)
  }

  /** Scan after scan: `held` is what the wheelhouse holds at each. Every scan but the last asked
      for more and got it; the last ends it. There are five scans at most: what a fifth fetch
      brings is not looked at any more, and the build gives up. */
  predicate Ran(judge: Judge, wheels: seq<Wheel>, held: seq<seq<Wheel>>, r: Result<Done, Error>, fetch: Fetch) {
    1 <= |held| <= 6 && held[0] == wheels && AllWentOn(judge, held, fetch) && EndsWith(judge, held, r, fetch)
  }

  /** One round: the scan, and what is to be done about it. */
  method Judged(wheels: seq<Wheel>, may: bool, read: Reading, meets: Meets) returns (verdict: Verdict)
    ensures verdict == JudgeOf(may, read, meets)(wheels) && (verdict.Shut? <==> Closed(wheels, read, meets))
  {
    var missing, fetchable := Scan(wheels, read, meets);
    NoGapsIsClosed(wheels, read, meets);
    if missing == {} {
      return Shut;
    }
    if !(may && |fetchable| == |missing|) {
      return Refused(missing);
    }
    verdict := Ask(fetchable);
  }

  method VerifyClosure(wheels: seq<Wheel>, cross: bool, fetchMissing: bool, fetch: Fetch, read: Reading, meets: Meets)
    returns (r: Result<Done, Error>, ghost held: seq<seq<Wheel>>)
    ensures Ran(JudgeOf(fetchMissing && cross, read, meets), wheels, held, r, fetch)
    ensures r.Success? ==> Closed(r.value.wheels, read, meets)
    ensures Closed(wheels, read, meets) ==> r == Success(Done(wheels, []))
  {
    ghost var judge := JudgeOf(fetchMissing && cross, read, meets);
    var now, added: seq<set<string>> := wheels, [];
    held := [wheels];
    for n := 0 to ROUNDS
      invariant |held| == n + 1 && held[0] == wheels && held[n] == now
      invariant AllWentOn(judge, held, fetch) && Reported(judge, held, added)
      invariant n > 0 ==> !Closed(wheels, read, meets)
    {
      var verdict := Judged(now, fetchMissing && cross, read, meets);
      if verdict.Shut? {
        return Success(Done(now, added)), held;
      }
      if verdict.Refused? {
        return Failure(Lacking(verdict.gaps)), held;
      }
      var next := fetch(n, now, verdict.specs);
      if next.None? {
        return Failure(DownloadFailed), held;
      }
      OneMore(judge, held, added, next.value, fetch);
      held := held + [next.value];
      now, added := next.value, added + [verdict.specs];
    }
    r := Failure(Incomplete);
  }

  lemma OneMore(judge: Judge, held: seq<seq<Wheel>>, added: seq<set<string>>, next: seq<Wheel>, fetch: Fetch)
    requires held != [] && AllWentOn(judge, held, fetch) && Reported(judge, held, added) && judge(held[|held| - 1]).Ask?
    requires fetch(|held| - 1, held[|held| - 1], judge(held[|held| - 1]).specs) == Some(next)
    ensures AllWentOn(judge, held + [next], fetch) && Reported(judge, held + [next], added + [judge(held[|held| - 1]).specs])
  {
    var more := held + [next];
    forall k | 0 <= k < |more| - 1
      ensures WentOn(judge, more, k, fetch)
    {
      assert more[k] == held[k];
      assert k < |held| - 1 ==> WentOn(judge, held, k, fetch) && more[k + 1] == held[k + 1];
    }
  }

  /** The build is decided: two runs over the same wheelhouse with the same downloads are one. */
  lemma {:induction false} RanOnce(judge: Judge, wheels: seq<Wheel>, held: seq<seq<Wheel>>, r: Result<Done, Error>, also: seq<seq<Wheel>>, s: Result<Done, Error>, fetch: Fetch)
    requires Ran(judge, wheels, held, r, fetch) && Ran(judge, wheels, also, s, fetch)
    ensures held == also && r == s
  {
    SameSoFar(judge, held, also, |held| - 1, fetch);
    OnlyTheLastStops(judge, wheels, held, r, fetch);
    OnlyTheLastStops(judge, wheels, also, s, fetch);
    var m := if |held| < |also| then |held| - 1 else |also| - 1;
    assert held[m] == also[m];
    assert GoesOn(judge, held, m, fetch) <==> GoesOn(judge, also, m, fetch);
    assert r.Success? && s.Success? ==> r.value.added == s.value.added;
  }

  predicate GoesOn(judge: Judge, held: seq<seq<Wheel>>, k: nat, fetch: Fetch)
    requires k < |held|
  {
    k < 5 && judge(held[k]).Ask? && fetch(k, held[k], judge(held[k]).specs).Some?
  }

  lemma OnlyTheLastStops(judge: Judge, wheels: seq<Wheel>, held: seq<seq<Wheel>>, r: Result<Done, Error>, fetch: Fetch)
    requires Ran(judge, wheels, held, r, fetch)
    ensures forall k :: 0 <= k < |held| ==> (GoesOn(judge, held, k, fetch) <==> k < |held| - 1)
  {
    forall k | 0 <= k < |held| - 1
      ensures GoesOn(judge, held, k, fetch)
    {
      assert WentOn(judge, held, k, fetch);
    }
  }

  lemma {:induction false} SameSoFar(judge: Judge, held: seq<seq<Wheel>>, also: seq<seq<Wheel>>, k: nat, fetch: Fetch)
    requires held != [] && also != [] && held[0] == also[0]
    requires AllWentOn(judge, held, fetch) && AllWentOn(judge, also, fetch)
    ensures forall j :: 0 <= j <= k && j < |held| && j < |also| ==> held[j] == also[j]
  {
    if 0 < k {
      SameSoFar(judge, held, also, k - 1, fetch);
      if k < |held| && k < |also| {
        assert WentOn(judge, held, k - 1, fetch) && WentOn(judge, also, k - 1, fetch);
      }
    }
  }

  /** What the first scan decides: a closed wheelhouse is done, with nothing fetched. One with
      gaps is refused at once unless fetching is allowed and they are all absent dependencies
      and no two messages come to the same name and specifier; then they are fetched. */
  lemma FirstScan(wheels: seq<Wheel>, may: bool, held: seq<seq<Wheel>>, r: Result<Done, Error>, fetch: Fetch, read: Reading, meets: Meets)
    requires Ran(JudgeOf(may, read, meets), wheels, held, r, fetch)
    ensures Closed(wheels, read, meets) ==> r == Success(Done(wheels, []))
    ensures var missing := Gaps(wheels, Available(wheels), read, meets);
            && (!Closed(wheels, read, meets) && !(may && AskedOnce(missing, read)) ==> r == Failure(Lacking(missing)))
            && (!Closed(wheels, read, meets) && may && AskedOnce(missing, read) ==>
                  match fetch(0, wheels, Fetchable(missing, read))
                  case None => r == Failure(DownloadFailed)
                  case Some(next) => |held| > 1 && held[1] == next)
  {
    var judge := JudgeOf(may, read, meets);
    JudgeMeans(wheels, may, read, meets);
    if |held| > 1 {
      assert WentOn(judge, held, 0, fetch);
    } else {
      assert held[|held| - 1] == wheels;
    }
  }

  /** Two requirements for the same absent dependency stop the build, whatever could be
      fetched: of two wheels, or of one wheel in two forms, such as with different extras. */
  lemma SharedAbsenceStops(wheels: seq<Wheel>, a: string, b: string, i: nat, j: nat, may: bool, held: seq<seq<Wheel>>, r: Result<Done, Error>, fetch: Fetch, read: Reading, meets: Meets)
    requires Ran(JudgeOf(may, read, meets), wheels, held, r, fetch)
    requires i < |wheels| && j < |wheels| && (wheels[i].name != wheels[j].name || a != b)
    requires Canonical(wheels[i].name) !in NO_DEPS && Canonical(wheels[j].name) !in NO_DEPS
    requires a in wheels[i].requires_ && b in wheels[j].requires_
    requires read(a).name == read(b).name && read(a).spec == read(b).spec && Applies(read(a)) && Applies(read(b))
    requires Canonical(read(a).name) !in Available(wheels)
    ensures r == Failure(Lacking(Gaps(wheels, Available(wheels), read, meets)))
  {
    var missing := Gaps(wheels, Available(wheels), read, meets);
    FirstScan(wheels, may, held, r, fetch, read, meets);
    NoGapsIsClosed(wheels, read, meets);
    AbsenceFound(wheels, a, i, read, meets);
    AbsenceFound(wheels, b, j, read, meets);
    AskedTwice(missing, Absent(a, wheels[i].name), Absent(b, wheels[j].name), read);
  }

  lemma AskedTwice(gaps: set<Gap>, g: Gap, h: Gap, read: Reading)
    requires g in gaps && h in gaps && g != h && SpecOf(g, read) == SpecOf(h, read)
    ensures gaps != {} && !AskedOnce(gaps, read)
  {
  }

  lemma AbsenceFound(wheels: seq<Wheel>, text: string, i: nat, read: Reading, meets: Meets)
    requires i < |wheels| && Canonical(wheels[i].name) !in NO_DEPS && text in wheels[i].requires_
    requires Applies(read(text)) && Canonical(read(text).name) !in Available(wheels)
    ensures Absent(text, wheels[i].name) in Gaps(wheels, Available(wheels), read, meets)
  {
    var k :| 0 <= k < |wheels[i].requires_| && wheels[i].requires_[k] == text;
    assert AskedBy(wheels[i].requires_, wheels[i].name, Available(wheels), read, meets, Absent(text, wheels[i].name));
    GapsHold(wheels, Available(wheels), read, meets, Absent(text, wheels[i].name));
  }
}
