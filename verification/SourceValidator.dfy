/** SourceDataValidator: the integrity checks on extracted data, each proved to report exactly what is wrong. */
module SourceValidator {
  import opened Wrappers
  import opened Contracts
  import opened Sorting
  import opened Unique

  datatype SourceError =
    | DuplicateIds(ids: set<int>)
    | UnexpectedIds(ids: set<int>)
    | MissingIds(ids: set<int>)
    | ConflictingObjectGroups(developers: set<int>)
    | DeveloperGroupDiffers(developer: int)

  ghost function SetOf(ids: seq<int>): set<int> {
    set i | 0 <= i < |ids| :: ids[i]
  }

  /** The ids standing at two positions. */
  ghost predicate Repeats(ids: seq<int>, id: int) {
    exists i, j :: 0 <= i < j < |ids| && ids[i] == id && ids[j] == id
  }

  method CollectIds(ids: seq<int>) returns (seen: set<int>, duplicates: set<int>)
    ensures seen == SetOf(ids)
    ensures forall id :: id in duplicates <==> Repeats(ids, id)
    ensures duplicates == {} <==> NoRepeats(ids)
  {
    seen, duplicates := {}, {};
    for n := 0 to |ids|
      invariant seen == SetOf(ids[..n])
      invariant forall id :: id in duplicates <==> Repeats(ids[..n], id)
    {
      RepeatsNext(ids, n);
      if ids[n] in seen {
        duplicates := duplicates + {ids[n]};
      }
      seen := seen + {ids[n]};
    }
    assert ids[..|ids|] == ids;
    if duplicates == {} {
      forall i, j | 0 <= i < j < |ids|
        ensures ids[i] != ids[j]
      {
        assert !Repeats(ids, ids[i]);
      }
    } else {
      ghost var id := Member(duplicates);
      assert Repeats(ids, id);
    }
  }

  lemma {:induction false} RepeatsNext(ids: seq<int>, n: nat)
    requires n < |ids|
    ensures SetOf(ids[..n + 1]) == SetOf(ids[..n]) + {ids[n]}
    ensures forall id :: Repeats(ids[..n + 1], id) <==>
              Repeats(ids[..n], id) || (id == ids[n] && ids[n] in SetOf(ids[..n]))
  {
    var head, next := ids[..n], ids[..n + 1];
    assert forall i :: 0 <= i < n ==> head[i] == next[i];
    assert next[n] == ids[n];
    forall id
      ensures Repeats(next, id) <==> Repeats(head, id) || (id == ids[n] && id in SetOf(head))
    {
      if Repeats(head, id) {
        var i, j :| 0 <= i < j < n && head[i] == id && head[j] == id;
        assert next[i] == id && next[j] == id;
      }
      if id == ids[n] && id in SetOf(head) {
        var i :| 0 <= i < n && head[i] == id;
        assert next[i] == id && next[n] == id;
      }
    }
    assert forall id :: id in SetOf(next) <==> id in SetOf(head) || id == ids[n];
  }

  /** Exactly the expected ids, each once. */
  ghost predicate ExactlyIds(ids: seq<int>, expected: set<int>) {
    NoRepeats(ids) && SetOf(ids) == expected
  }

  /** The common check on developers and company groups: exactly the requested ids, each once. */
  method ValidateIds(ids: seq<int>, expected: set<int>) returns (error: Option<SourceError>)
    ensures error.None? <==> ExactlyIds(ids, expected)
    ensures match error
            case None => true
            case Some(DuplicateIds(s)) => s != {} && forall id :: id in s <==> Repeats(ids, id)
            case Some(UnexpectedIds(s)) => NoRepeats(ids) && s == SetOf(ids) - expected != {}
            case Some(MissingIds(s)) => NoRepeats(ids) && SetOf(ids) <= expected && s == expected - SetOf(ids) != {}
            case Some(_) => false
  {
    var seen, duplicates := CollectIds(ids);
    if duplicates != {} {
      return Some(DuplicateIds(duplicates));
    }
    var unexpected := seen - expected;
    if unexpected != {} {
      ghost var id := Member(unexpected);
      return Some(UnexpectedIds(unexpected));
    }
    NothingUnexpected(seen, expected);
    var missing := expected - seen;
    if missing != {} {
      ghost var id := Member(missing);
      return Some(MissingIds(missing));
    }
    NothingUnexpected(expected, seen);
    return None;
  }

  lemma {:induction false} NothingUnexpected(a: set<int>, b: set<int>)
    requires a - b == {}
    ensures a <= b
  {
    forall x | x in a
      ensures x in b
    {
      assert x in b || x in a - b;
    }
  }

  ghost function ObjectIds(objects: seq<ExtractedObject>): seq<int> {
    seq(|objects|, i requires 0 <= i < |objects| => objects[i].id)
  }

  ghost function RegionIds(objects: seq<ExtractedObject>): set<int> {
    set o | o in objects :: o.regionId
  }

  ghost predicate ObjectsAccepted(objects: seq<ExtractedObject>, expectedRegions: set<int>) {
    NoRepeats(ObjectIds(objects)) && RegionIds(objects) == expectedRegions
  }

  /** Distinct objects covering exactly the requested regions. */
  method ValidateObjects(objects: seq<ExtractedObject>, expectedRegions: set<int>) returns (error: Option<SourceError>)
    ensures error.None? <==> ObjectsAccepted(objects, expectedRegions)
    ensures match error
            case None => true
            case Some(DuplicateIds(s)) => s != {} && forall id :: id in s <==> Repeats(ObjectIds(objects), id)
            case Some(UnexpectedIds(s)) => s == RegionIds(objects) - expectedRegions != {}
            case Some(MissingIds(s)) =>
              RegionIds(objects) <= expectedRegions && s == expectedRegions - RegionIds(objects) != {}
            case Some(_) => false
  {
    var ids := seq(|objects|, i requires 0 <= i < |objects| => objects[i].id);
    var _, duplicates := CollectIds(ids);
    assert ids == ObjectIds(objects);
    if duplicates != {} {
      return Some(DuplicateIds(duplicates));
    }
    var regions := set o | o in objects :: o.regionId;
    var unexpected := regions - expectedRegions;
    if unexpected != {} {
      ghost var id := Member(unexpected);
      return Some(UnexpectedIds(unexpected));
    }
    NothingUnexpected(regions, expectedRegions);
    var missing := expectedRegions - regions;
    if missing != {} {
      ghost var id := Member(missing);
      return Some(MissingIds(missing));
    }
    NothingUnexpected(expectedRegions, regions);
    return None;
  }

  // ----- company groups of objects and developers -----

  /** The groups the objects of a developer name. */
  ghost predicate NamesGroup(objects: seq<ExtractedObject>, developer: int, group: int) {
    exists i :: 0 <= i < |objects| && objects[i].developerId == developer && objects[i].companyGroupId == Some(group)
  }

  ghost predicate ObjectGroupsConflict(objects: seq<ExtractedObject>, developer: int) {
    exists g, h :: g != h && NamesGroup(objects, developer, g) && NamesGroup(objects, developer, h)
  }

  /** `{developer.id: developer.company_group_id for developer in developers}`. */
  function GroupByDeveloper(developers: seq<ExtractedDeveloper>): map<int, Option<PositiveInt>> {
    if developers == [] then map[]
    else
      var last := developers[|developers| - 1];
      GroupByDeveloper(developers[..|developers| - 1])[last.id := last.companyGroupId]
  }

  /** Position `k` holds the developer; of several with its id the last counts. */
  ghost predicate LastOf(developers: seq<ExtractedDeveloper>, k: nat, developer: int) {
    && k < |developers| && developers[k].id == developer
    && forall m :: k < m < |developers| ==> developers[m].id != developer
  }

  lemma {:induction false} GroupByDeveloperMeaning(developers: seq<ExtractedDeveloper>)
    ensures forall d <- GroupByDeveloper(developers) :: exists k: nat :: LastOf(developers, k, d)
    ensures forall k: nat, d :: LastOf(developers, k, d) ==>
              d in GroupByDeveloper(developers) && GroupByDeveloper(developers)[d] == developers[k].companyGroupId
  {
    if developers != [] {
      var head, last := developers[..|developers| - 1], developers[|developers| - 1];
      GroupByDeveloperMeaning(head);
      assert LastOf(developers, |developers| - 1, last.id);
      assert forall k: nat, d :: d != last.id ==> (LastOf(developers, k, d) <==> LastOf(head, k, d));
      forall d <- GroupByDeveloper(developers)
        ensures exists k: nat :: LastOf(developers, k, d)
      {
        if d != last.id {
          assert d in GroupByDeveloper(head);
          var k: nat :| LastOf(head, k, d);
          assert LastOf(developers, k, d);
        }
      }
    }
  }

  /** A developer whose own group is known and differs from the one an object of it names. */
  ghost predicate DeveloperConflicts(objects: seq<ExtractedObject>, developers: seq<ExtractedDeveloper>, developer: int)
  {
    exists k: nat, g ::
      && LastOf(developers, k, developer) && developers[k].companyGroupId.Some?
      && g != developers[k].companyGroupId.value && NamesGroup(objects, developer, g)
  }

  ghost predicate GroupsAgree(objects: seq<ExtractedObject>, developers: seq<ExtractedDeveloper>) {
    forall d :: !ObjectGroupsConflict(objects, d) && !DeveloperConflicts(objects, developers, d)
  }

  ghost predicate Collects(groups: map<int, set<int>>, objects: seq<ExtractedObject>) {
    && (forall d, g :: d in groups && g in groups[d] <==> NamesGroup(objects, d, g))
    && (forall d :: d in groups ==> groups[d] != {})
  }

  lemma {:induction false} CollectNext(groups: map<int, set<int>>, objects: seq<ExtractedObject>, n: nat)
    requires n < |objects| && Collects(groups, objects[..n])
    ensures objects[n].companyGroupId.None? ==> Collects(groups, objects[..n + 1])
    ensures objects[n].companyGroupId.Some? ==>
              var d, g := objects[n].developerId, objects[n].companyGroupId.value;
              Collects(groups[d := (if d in groups then groups[d] else {}) + {g}], objects[..n + 1])
  {
    var head, next, o := objects[..n], objects[..n + 1], objects[n];
    assert forall i :: 0 <= i < n ==> head[i] == next[i];
    assert next[n] == o;
    forall d, g
      ensures NamesGroup(next, d, g) <==> NamesGroup(head, d, g) || (o.developerId == d && o.companyGroupId == Some(g))
    {
      if NamesGroup(head, d, g) {
        var i :| 0 <= i < n && head[i].developerId == d && head[i].companyGroupId == Some(g);
        assert next[i].developerId == d;
      }
      if o.developerId == d && o.companyGroupId == Some(g) {
        assert next[n].developerId == d;
      }
    }
    if o.companyGroupId.Some? {
      var d0, g0 := o.developerId, o.companyGroupId.value;
      var more := groups[d0 := (if d0 in groups then groups[d0] else {}) + {g0}];
      assert g0 in more[d0];
    }
  }

  lemma {:induction false} OneMember(s: set<int>, x: int)
    requires |s| <= 1 && x in s
    ensures s == {x}
  {
    assert |s - {x}| == 0;
  }

  lemma {:induction false} TwoMembers(s: set<int>, x: int, y: int)
    requires x in s && y in s && x != y
    ensures |s| > 1
  {
    assert {x, y} <= s;
    assert |s - {x}| >= 1 by { assert y in s - {x}; }
  }

  /** Only simultaneously known relations to a company group are compared. */
  method ValidateGroupConsistency(objects: seq<ExtractedObject>, developers: seq<ExtractedDeveloper>)
    returns (error: Option<SourceError>)
    ensures error.None? <==> GroupsAgree(objects, developers)
    ensures match error
            case None => true
            case Some(ConflictingObjectGroups(s)) => s != {} && forall d :: d in s <==> ObjectGroupsConflict(objects, d)
            case Some(DeveloperGroupDiffers(d)) => DeveloperConflicts(objects, developers, d)
            case Some(_) => false
  {
    var groups: map<int, set<int>> := map[];
    for n := 0 to |objects|
      invariant Collects(groups, objects[..n])
    {
      CollectNext(groups, objects, n);
      if objects[n].companyGroupId.None? {
        continue;
      }
      var d := objects[n].developerId;
      groups := groups[d := (if d in groups then groups[d] else {}) + {objects[n].companyGroupId.value}];
    }
    assert objects[..|objects|] == objects;
    var conflicting := set d | d in groups && |groups[d]| > 1;
    ConflictsMeaning(groups, objects);
    if conflicting != {} {
      ghost var d := Member(conflicting);
      return Some(ConflictingObjectGroups(conflicting));
    }
    assert forall d :: d in groups ==> d !in conflicting;
    var known := GroupByDeveloper(developers);
    GroupByDeveloperMeaning(developers);
    var rest := groups.Keys;
    while rest != {}
      invariant rest <= groups.Keys
      invariant forall d :: d in groups && d !in rest ==> !DeveloperConflicts(objects, developers, d)
      decreases rest
    {
      ghost var some := Member(rest);
      var d :| d in rest;
      rest := rest - {d};
      if d !in known || known[d].None? {
        continue;
      }
      ghost var one := Member(groups[d]);
      var g :| g in groups[d];
      OneMember(groups[d], g);
      if g != known[d].value {
        assert NamesGroup(objects, d, g);
        return Some(DeveloperGroupDiffers(d));
      }
    }
    forall d
      ensures !ObjectGroupsConflict(objects, d) && !DeveloperConflicts(objects, developers, d)
    {
      if d !in groups {
        assert forall g :: !NamesGroup(objects, d, g);
      }
    }
    return None;
  }

  lemma {:induction false} ConflictsMeaning(groups: map<int, set<int>>, objects: seq<ExtractedObject>)
    requires Collects(groups, objects)
    ensures forall d :: ObjectGroupsConflict(objects, d) <==> d in groups && |groups[d]| > 1
  {
    forall d
      ensures ObjectGroupsConflict(objects, d) <==> d in groups && |groups[d]| > 1
    {
      if ObjectGroupsConflict(objects, d) {
        var g, h :| g != h && NamesGroup(objects, d, g) && NamesGroup(objects, d, h);
        TwoMembers(groups[d], g, h);
      }
      if d in groups && |groups[d]| > 1 {
        var g := Member(groups[d]);
        assert |groups[d] - {g}| > 0;
        var h := Member(groups[d] - {g});
        assert NamesGroup(objects, d, g) && NamesGroup(objects, d, h);
      }
    }
  }
}
