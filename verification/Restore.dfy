/** deploy/kit.py, `cmd_restore`: which backup file is which, told by the ends of the names. */
module Restore {
  import opened Text

  const DATABASE: string := "-database.sql.gz"
  const PRIVATE: string := "-private-files.tar"
  const PUBLIC: string := "-files.tar"
  const CONFIG: string := "site_config_backup.json"
  const SUFFIXES: seq<string> := [DATABASE, PRIVATE, PUBLIC, CONFIG]

  predicate Ends(name: string, suffix: string) {
    |suffix| <= |name| && name[|name| - |suffix|..] == suffix
  }

  type Slots = map<string, string>

  datatype Error = NoConfig

  /** The first position of a name with this end; -1 when there is none. */
  function FirstIndex(names: seq<string>, suffix: string): (i: int)
    ensures -1 <= i < |names|
    ensures i >= 0 ==> Ends(names[i], suffix)
    ensures forall j :: 0 <= j < |names| && (j < i || i == -1) ==> !Ends(names[j], suffix)
  {
    if names == [] then -1
    else
      var last := |names| - 1;
      var i := FirstIndex(names[..last], suffix);
      if i >= 0 then i else if Ends(names[last], suffix) then last else -1
  }

  /** The slot holds the first name with this end, not counting one position. */
  ghost predicate Filled(names: seq<string>, slots: Slots, suffix: string, skip: int) {
    if suffix in slots then
      exists i :: 0 <= i < |names| && IsFirst(names, suffix, skip, i) && slots[suffix] == names[i]
    else
      forall j :: 0 <= j < |names| && j != skip ==> !Ends(names[j], suffix)
  }

  ghost predicate IsFirst(names: seq<string>, suffix: string, skip: int, i: nat)
    requires i < |names|
  {
    && i != skip && Ends(names[i], suffix)
    && forall j :: 0 <= j < i && j != skip ==> !Ends(names[j], suffix)
  }

  /** The public files go to the slot whose end the private files share. */
  ghost predicate Classified(names: seq<string>, slots: Slots) {
    && Filled(names, slots, DATABASE, -1)
    && Filled(names, slots, PRIVATE, -1)
    && Filled(names, slots, PUBLIC, FirstIndex(names, PRIVATE))
    && Filled(names, slots, CONFIG, -1)
  }

  method Classify(names: seq<string>) returns (r: Result<Slots, Error>)
    ensures r.Failure? <==> FirstIndex(names, CONFIG) == -1
    ensures r.Success? ==> Classified(names, r.value)
  {
    var slots: Slots := map[];
    for n := 0 to |names|
      invariant Classified(names[..n], slots)
    {
      var name := names[n];
      ghost var before := slots;
      for k := 0 to 4
        invariant slots == before
        invariant k > 0 ==> !Takes(name, DATABASE, before)
        invariant k > 1 ==> !Takes(name, PRIVATE, before)
        invariant k > 2 ==> !Takes(name, PUBLIC, before)
        invariant k > 3 ==> !Takes(name, CONFIG, before)
      {
        var suffix := SUFFIXES[k];
        if Ends(name, suffix) && suffix !in slots {
          slots := slots[suffix := name];
          break;
        }
      }
      assert slots == Place(before, name);
      PlaceClassifies(names[..n], before, name);
      assert names[..n + 1] == names[..n] + [name];
    }
    assert names[..|names|] == names;
    if CONFIG !in slots {
      return Failure(NoConfig);
    }
    r := Success(slots);
  }

  predicate Takes(name: string, suffix: string, slots: Slots) { Ends(name, suffix) && suffix !in slots }

  function Place(slots: Slots, name: string): Slots {
    if Takes(name, DATABASE, slots) then slots[DATABASE := name]
    else if Takes(name, PRIVATE, slots) then slots[PRIVATE := name]
    else if Takes(name, PUBLIC, slots) then slots[PUBLIC := name]
    else if Takes(name, CONFIG, slots) then slots[CONFIG := name]
    else slots
  }

  lemma LastChar(name: string, suffix: string)
    requires Ends(name, suffix) && suffix != ""
    ensures name != "" && name[|name| - 1] == suffix[|suffix| - 1]
  {
  }

  lemma PrivateEndsPublic(name: string)
    requires Ends(name, PRIVATE)
    ensures Ends(name, PUBLIC)
  {
  }

  lemma ConfigAlone(name: string)
    requires Ends(name, CONFIG)
    ensures !Ends(name, DATABASE) && !Ends(name, PUBLIC) && !Ends(name, PRIVATE)
  {
    LastChar(name, CONFIG);
    if Ends(name, DATABASE) { LastChar(name, DATABASE); }
    if Ends(name, PUBLIC) { LastChar(name, PUBLIC); }
    if Ends(name, PRIVATE) { LastChar(name, PRIVATE); }
  }

  lemma DatabaseAlone(name: string)
    requires Ends(name, DATABASE)
    ensures !Ends(name, PUBLIC) && !Ends(name, PRIVATE)
  {
    LastChar(name, DATABASE);
    if Ends(name, PUBLIC) { LastChar(name, PUBLIC); }
    if Ends(name, PRIVATE) { LastChar(name, PRIVATE); }
  }

  /** The four ends: only the two archive ends can be shared. */
  lemma EndsApart(name: string)
    ensures Ends(name, PRIVATE) ==> Ends(name, PUBLIC)
    ensures Ends(name, DATABASE) ==> !Ends(name, PUBLIC) && !Ends(name, PRIVATE) && !Ends(name, CONFIG)
    ensures Ends(name, CONFIG) ==> !Ends(name, PUBLIC) && !Ends(name, PRIVATE)
  {
    if Ends(name, PRIVATE) { PrivateEndsPublic(name); }
    if Ends(name, DATABASE) { DatabaseAlone(name); }
    if Ends(name, CONFIG) { ConfigAlone(name); }
  }

  /** One slot after one more name. */
  lemma Extend(names: seq<string>, slots: Slots, after: Slots, suffix: string, skip: int, skip2: int, name: string)
    requires Filled(names, slots, suffix, skip)
    requires skip2 == skip < |names| || (skip == -1 && skip2 == |names|)
    requires suffix in slots ==> suffix in after && after[suffix] == slots[suffix]
    requires suffix !in slots && Ends(name, suffix) && skip2 != |names| ==> suffix in after && after[suffix] == name
    requires suffix !in slots && !(Ends(name, suffix) && skip2 != |names|) ==> suffix !in after
    ensures Filled(names + [name], after, suffix, skip2)
  {
    var all := names + [name];
    if suffix in slots {
      var i: nat :| i < |names| && IsFirst(names, suffix, skip, i) && slots[suffix] == names[i];
      assert IsFirst(all, suffix, skip2, i) && after[suffix] == all[i];
    } else if suffix in after {
      assert IsFirst(all, suffix, skip2, |names|) && all[|names|] == name;
    }
  }

  lemma FirstIndexSnoc(names: seq<string>, name: string, suffix: string)
    ensures FirstIndex(names + [name], suffix)
         == if FirstIndex(names, suffix) >= 0 then FirstIndex(names, suffix)
            else if Ends(name, suffix) then |names| else -1
  {
  }

  lemma FilledMeans(names: seq<string>, slots: Slots, suffix: string)
    requires Filled(names, slots, suffix, -1)
    ensures suffix in slots <==> FirstIndex(names, suffix) >= 0
  {
  }

  lemma PlaceClassifies(names: seq<string>, slots: Slots, name: string)
    requires Classified(names, slots)
    ensures Classified(names + [name], Place(slots, name))
  {
    var after := Place(slots, name);
    var skip, skip2 := FirstIndex(names, PRIVATE), FirstIndex(names + [name], PRIVATE);
    EndsApart(name);
    FirstIndexSnoc(names, name, PRIVATE);
    FilledMeans(names, slots, PRIVATE);
    Extend(names, slots, after, DATABASE, -1, -1, name);
    Extend(names, slots, after, PRIVATE, -1, -1, name);
    Extend(names, slots, after, PUBLIC, skip, skip2, name);
    Extend(names, slots, after, CONFIG, -1, -1, name);
  }

  /** A second private archive stands before every public one. */
  ghost predicate SecondPrivateFirst(names: seq<string>) {
    exists j :: 0 <= j < |names| && SecondPrivateAt(names, j)
  }

  ghost predicate SecondPrivateAt(names: seq<string>, j: nat)
    requires j < |names|
  {
    && FirstIndex(names, PRIVATE) < j && Ends(names[j], PRIVATE)
    && forall k :: 0 <= k < j && Ends(names[k], PUBLIC) ==> Ends(names[k], PRIVATE)
  }

  /** When all names with this end up to some later one have another end too, so has the
      slot's. */
  lemma FoundBefore(names: seq<string>, slots: Slots, suffix: string, skip: int, j: nat, other: string)
    requires Filled(names, slots, suffix, skip)
    requires j < |names| && j != skip && Ends(names[j], suffix) && Ends(names[j], other)
    requires forall k :: 0 <= k < j && Ends(names[k], suffix) ==> Ends(names[k], other)
    ensures suffix in slots && Ends(slots[suffix], other)
  {
  }

  lemma SecondTakesPublic(names: seq<string>, slots: Slots, j: nat)
    requires Filled(names, slots, PUBLIC, FirstIndex(names, PRIVATE))
    requires j < |names| && SecondPrivateAt(names, j)
    ensures PUBLIC in slots && Ends(slots[PUBLIC], PRIVATE)
  {
    PrivateEndsPublic(names[j]);
    FoundBefore(names, slots, PUBLIC, FirstIndex(names, PRIVATE), j, PRIVATE);
  }

  lemma PublicTakenBySecond(names: seq<string>, slots: Slots)
    requires Filled(names, slots, PUBLIC, FirstIndex(names, PRIVATE))
    requires PUBLIC in slots && Ends(slots[PUBLIC], PRIVATE)
    ensures SecondPrivateFirst(names)
  {
    var i: nat :| i < |names| && IsFirst(names, PUBLIC, FirstIndex(names, PRIVATE), i) && slots[PUBLIC] == names[i];
    assert SecondPrivateAt(names, i);
  }

  /** The slot for public files holds a private archive exactly when a second private archive
      comes before every public one. */
  lemma PublicIsPrivate(names: seq<string>, slots: Slots)
    requires Classified(names, slots)
    ensures PUBLIC in slots && Ends(slots[PUBLIC], PRIVATE) <==> SecondPrivateFirst(names)
  {
    if j: nat :| j < |names| && SecondPrivateAt(names, j) {
      SecondTakesPublic(names, slots, j);
    }
    if PUBLIC in slots && Ends(slots[PUBLIC], PRIVATE) {
      PublicTakenBySecond(names, slots);
    }
  }

  predicate OnePrivate(names: seq<string>) {
    forall i, j :: 0 <= i < j < |names| ==> !(Ends(names[i], PRIVATE) && Ends(names[j], PRIVATE))
  }

  /** With at most one private archive the slot for public files holds a public one whenever
      there is one. */
  lemma OnePrivateIsEnough(names: seq<string>, slots: Slots)
    requires Classified(names, slots) && OnePrivate(names)
    ensures PUBLIC in slots ==> !Ends(slots[PUBLIC], PRIVATE)
    ensures PUBLIC in slots <==> exists i :: 0 <= i < |names| && Ends(names[i], PUBLIC) && !Ends(names[i], PRIVATE)
  {
  }
}
