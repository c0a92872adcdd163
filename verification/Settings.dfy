/** Merging the settings files: nested tables are united, and a path bound twice is an error. */
module Settings {
  import opened Wrappers

  /** A TOML value: a table, or anything else, whose content does not matter here. */
  datatype Setting =
    | Leaf(value: int)
    | Table(entries: map<string, Setting>)

  type Path = seq<string>

  function ValueAt(s: Setting, path: Path): Option<Setting> {
    if path == [] then Some(s)
    else if s.Table? && path[0] in s.entries then ValueAt(s.entries[path[0]], path[1..])
    else None
  }

  /** The path is bound in both, and not to a table in both. */
  predicate Conflict(a: Setting, b: Setting, path: Path) {
    && ValueAt(a, path).Some? && ValueAt(b, path).Some?
    && !(ValueAt(a, path).value.Table? && ValueAt(b, path).value.Table?)
  }

  ghost predicate Compatible(a: Setting, b: Setting) {
    && a.Table? && b.Table?
    && (forall k | k in a.entries && k in b.entries :: Compatible(a.entries[k], b.entries[k]))
  }

  ghost function Merge(a: Setting, b: Setting): (r: Setting)
    requires Compatible(a, b)
    ensures r.Table?
  {
    Table(map k | k in a.entries.Keys + b.entries.Keys ::
            if k !in b.entries then a.entries[k]
            else if k !in a.entries then b.entries[k]
            else Merge(a.entries[k], b.entries[k]))
  }

  // ----- when the merge succeeds, and what it holds -----

  lemma {:induction false} NoConflictAlong(a: Setting, b: Setting, path: Path)
    requires Compatible(a, b)
    ensures !Conflict(a, b, path)
  {
    if path != [] && path[0] in a.entries && path[0] in b.entries {
      NoConflictAlong(a.entries[path[0]], b.entries[path[0]], path[1..]);
    }
  }

  lemma {:induction false} SomeConflict(a: Setting, b: Setting) returns (path: Path)
    requires a.Table? && b.Table? && !Compatible(a, b)
    ensures Conflict(a, b, path)
  {
    var k :| k in a.entries && k in b.entries && !Compatible(a.entries[k], b.entries[k]);
    var below := [];
    if a.entries[k].Table? && b.entries[k].Table? {
      below := SomeConflict(a.entries[k], b.entries[k]);
    }
    path := [k] + below;
    assert path[1..] == below;
  }

  /** Two tables can be merged exactly when no path is bound in both other than as a table in both. */
  lemma {:induction false} MergesIffNoConflict(a: Setting, b: Setting)
    requires a.Table? && b.Table?
    ensures Compatible(a, b) <==> forall path :: !Conflict(a, b, path)
  {
    if Compatible(a, b) {
      forall path
        ensures !Conflict(a, b, path)
      {
        NoConflictAlong(a, b, path);
      }
    } else {
      var path := SomeConflict(a, b);
    }
  }

  /** Every path looks up to its owner's value; where both sides have a table, to the merge of the two. */
  lemma {:induction false} MergedLookup(a: Setting, b: Setting, path: Path)
    requires Compatible(a, b)
    ensures var x, y := ValueAt(a, path), ValueAt(b, path);
            && (x.Some? && y.Some? ==> Compatible(x.value, y.value))
            && ValueAt(Merge(a, b), path) ==
               if x.Some? && y.Some? then Some(Merge(x.value, y.value)) else if x.Some? then x else y
  {
    if path != [] {
      var k := path[0];
      if k in a.entries && k in b.entries {
        MergedLookup(a.entries[k], b.entries[k], path[1..]);
      }
    }
  }

  /** The merge has the leaves of both tables and no other. */
  lemma {:induction false} MergedLeaves(a: Setting, b: Setting, path: Path, leaf: Setting)
    requires Compatible(a, b) && leaf.Leaf?
    ensures ValueAt(Merge(a, b), path) == Some(leaf) <==>
              ValueAt(a, path) == Some(leaf) || ValueAt(b, path) == Some(leaf)
  {
    MergedLookup(a, b, path);
  }

  // ----- the order and grouping of the sources do not matter -----

  lemma {:induction false} MergeCommutes(a: Setting, b: Setting)
    ensures Compatible(a, b) <==> Compatible(b, a)
    ensures Compatible(a, b) ==> Merge(a, b) == Merge(b, a)
  {
    if a.Table? && b.Table? {
      forall k | k in a.entries && k in b.entries
        ensures Compatible(a.entries[k], b.entries[k]) <==> Compatible(b.entries[k], a.entries[k])
        ensures Compatible(a.entries[k], b.entries[k]) ==>
                  Merge(a.entries[k], b.entries[k]) == Merge(b.entries[k], a.entries[k])
      {
        MergeCommutes(a.entries[k], b.entries[k]);
      }
    }
  }

  /** A third table fits the merge of two exactly when it fits each. */
  lemma {:induction false} FitsMergeIffFitsBoth(a: Setting, b: Setting, c: Setting)
    requires Compatible(a, b)
    ensures Compatible(Merge(a, b), c) <==> Compatible(a, c) && Compatible(b, c)
  {
    if c.Table? {
      forall k | k in a.entries && k in b.entries && k in c.entries
        ensures Compatible(Merge(a.entries[k], b.entries[k]), c.entries[k])
            <==> Compatible(a.entries[k], c.entries[k]) && Compatible(b.entries[k], c.entries[k])
      {
        FitsMergeIffFitsBoth(a.entries[k], b.entries[k], c.entries[k]);
      }
    }
  }

  lemma {:induction false} MergeAssociates(a: Setting, b: Setting, c: Setting)
    requires Compatible(a, b) && Compatible(a, c) && Compatible(b, c)
    ensures Compatible(Merge(a, b), c) && Compatible(a, Merge(b, c))
    ensures Merge(Merge(a, b), c) == Merge(a, Merge(b, c))
  {
    FitsMergeIffFitsBoth(a, b, c);
    FitsMergeIffFitsBoth(b, c, a);
    MergeCommutes(a, b);
    MergeCommutes(a, c);
    MergeCommutes(a, Merge(b, c));
    var left, right := Merge(Merge(a, b), c), Merge(a, Merge(b, c));
    forall k | k in left.entries
      ensures k in right.entries && left.entries[k] == right.entries[k]
    {
      if k in a.entries && k in b.entries && k in c.entries {
        MergeAssociates(a.entries[k], b.entries[k], c.entries[k]);
      }
    }
    assert left.entries == right.entries;
  }

  /** Merging, with failure: an overlap anywhere fails the whole. */
  ghost function Join(x: Option<Setting>, y: Option<Setting>): (r: Option<Setting>)
    ensures r.Some? ==> x.Some? && y.Some? && r.value.Table?
  {
    if x.Some? && y.Some? && Compatible(x.value, y.value) then Some(Merge(x.value, y.value)) else None
  }

  lemma {:induction false} JoinCommutes(x: Option<Setting>, y: Option<Setting>)
    ensures Join(x, y) == Join(y, x)
  {
    if x.Some? && y.Some? {
      MergeCommutes(x.value, y.value);
    }
  }

  lemma {:induction false} JoinAssociates(x: Option<Setting>, y: Option<Setting>, z: Option<Setting>)
    ensures Join(Join(x, y), z) == Join(x, Join(y, z))
  {
    if x.Some? && y.Some? && z.Some? {
      var a, b, c := x.value, y.value, z.value;
      if Compatible(a, b) {
        FitsMergeIffFitsBoth(a, b, c);
      }
      if Compatible(b, c) {
        FitsMergeIffFitsBoth(b, c, a);
        MergeCommutes(a, Merge(b, c));
      }
      MergeCommutes(a, b);
      MergeCommutes(a, c);
      if Compatible(a, b) && Compatible(a, c) && Compatible(b, c) {
        MergeAssociates(a, b, c);
      }
    }
  }

  function Source(s: Setting): Option<Setting> {
    if s.Table? then Some(s) else None
  }

  ghost function MergeAll(sources: seq<Setting>): (r: Option<Setting>)
    ensures r.Some? ==> r.value.Table?
  {
    if sources == [] then Some(Table(map[])) else Join(Source(sources[0]), MergeAll(sources[1..]))
  }

  lemma {:induction false} EmptyIsNeutral(x: Option<Setting>)
    requires x.Some? ==> x.value.Table?
    ensures Join(x, Some(Table(map[]))) == x && Join(Some(Table(map[])), x) == x
  {
    if x.Some? {
      assert Merge(x.value, Table(map[])).entries == x.value.entries;
      assert Merge(Table(map[]), x.value).entries == x.value.entries;
    }
  }

  lemma {:induction false} MergeAllConcat(a: seq<Setting>, b: seq<Setting>)
    ensures MergeAll(a + b) == Join(MergeAll(a), MergeAll(b))
  {
    if a == [] {
      assert a + b == b;
      EmptyIsNeutral(MergeAll(b));
    } else {
      assert (a + b)[1..] == a[1..] + b;
      MergeAllConcat(a[1..], b);
      JoinAssociates(Source(a[0]), MergeAll(a[1..]), MergeAll(b));
    }
  }

  lemma {:induction false} MergeAllMovesToFront(before: seq<Setting>, one: Setting, after: seq<Setting>)
    ensures MergeAll(before + [one] + after) == MergeAll([one] + (before + after))
  {
    var x, y, z := MergeAll(before), MergeAll([one]), MergeAll(after);
    MergeAllConcat(before + [one], after);
    MergeAllConcat(before, [one]);
    MergeAllConcat([one], before + after);
    MergeAllConcat(before, after);
    JoinCommutes(x, y);
    JoinAssociates(y, x, z);
  }

  /** Taking an element out of both of two rearrangements leaves rearrangements. */
  lemma {:induction false} RemoveFirst<T>(a: seq<T>, b: seq<T>, i: nat)
    requires multiset(a) == multiset(b) && a != [] && i < |b| && b[i] == a[0]
    ensures b == b[..i] + [a[0]] + b[i + 1..] && multiset(a[1..]) == multiset(b[..i] + b[i + 1..])
  {
    var before, after := b[..i], b[i + 1..];
    assert b == before + [a[0]] + after;
    assert a == [a[0]] + a[1..];
    assert multiset(b) == multiset(before) + multiset{a[0]} + multiset(after);
    assert multiset(before + after) == multiset(before) + multiset(after);
    assert multiset(a[1..]) == multiset(a) - multiset{a[0]};
  }

  lemma {:induction false} MergeAllIgnoresOrder(a: seq<Setting>, b: seq<Setting>)
    requires multiset(a) == multiset(b)
    ensures MergeAll(a) == MergeAll(b)
  {
    if a == [] {
      assert |multiset(b)| == 0;
    } else {
      assert a[0] in multiset(b);
      var i :| 0 <= i < |b| && b[i] == a[0];
      var before, after := b[..i], b[i + 1..];
      RemoveFirst(a, b, i);
      MergeAllIgnoresOrder(a[1..], before + after);
      MergeAllMovesToFront(before, a[0], after);
      assert ([a[0]] + (before + after))[1..] == before + after;
    }
  }

  /** A way of merging sources two at a time. */
  datatype Grouping = One(source: Setting) | Two(left: Grouping, right: Grouping)

  function SourcesOf(g: Grouping): seq<Setting> {
    match g
    case One(source) => [source]
    case Two(left, right) => SourcesOf(left) + SourcesOf(right)
  }

  ghost function MergeGrouped(g: Grouping): Option<Setting> {
    match g
    case One(source) => Source(source)
    case Two(left, right) => Join(MergeGrouped(left), MergeGrouped(right))
  }

  lemma {:induction false} GroupingIsMergeAll(g: Grouping)
    ensures MergeGrouped(g) == MergeAll(SourcesOf(g))
  {
    match g
    case One(source) =>
      EmptyIsNeutral(Source(source));
      assert [source][1..] == [];
    case Two(left, right) =>
      GroupingIsMergeAll(left);
      GroupingIsMergeAll(right);
      MergeAllConcat(SourcesOf(left), SourcesOf(right));
  }

  /** Success and result depend only on which sources are merged, not on their order or grouping. */
  lemma {:induction false} MergeIgnoresOrderAndGrouping(g: Grouping, h: Grouping)
    requires multiset(SourcesOf(g)) == multiset(SourcesOf(h))
    ensures MergeGrouped(g) == MergeGrouped(h)
  {
    GroupingIsMergeAll(g);
    GroupingIsMergeAll(h);
    MergeAllIgnoresOrder(SourcesOf(g), SourcesOf(h));
  }

  /** No path is bound in two of the sources other than as a table in both. */
  ghost predicate NoOverlap(sources: seq<Setting>) {
    forall i, j, path | 0 <= i < j < |sources| :: !Conflict(sources[i], sources[j], path)
  }

  ghost predicate AllCompatible(sources: seq<Setting>) {
    && (forall i :: 0 <= i < |sources| ==> sources[i].Table?)
    && (forall i, j :: 0 <= i < j < |sources| ==> Compatible(sources[i], sources[j]))
  }

  lemma {:induction false} FitsAllIffFitsEach(one: Setting, sources: seq<Setting>)
    requires one.Table? && MergeAll(sources).Some?
    ensures Compatible(one, MergeAll(sources).value) <==> forall i :: 0 <= i < |sources| ==> Compatible(one, sources[i])
  {
    if sources != [] {
      var head, rest := sources[0], MergeAll(sources[1..]).value;
      FitsAllIffFitsEach(one, sources[1..]);
      FitsMergeIffFitsBoth(head, rest, one);
      MergeCommutes(one, head);
      MergeCommutes(one, rest);
      MergeCommutes(one, Merge(head, rest));
      assert sources == [head] + sources[1..];
    }
  }

  lemma {:induction false} MergeAllIffCompatible(sources: seq<Setting>)
    ensures MergeAll(sources).Some? <==> AllCompatible(sources)
  {
    if sources != [] {
      var rest := sources[1..];
      MergeAllIffCompatible(rest);
      assert sources == [sources[0]] + rest;
      if sources[0].Table? && MergeAll(rest).Some? {
        FitsAllIffFitsEach(sources[0], rest);
      }
      if AllCompatible(sources) {
        assert AllCompatible(rest);
      }
    }
  }

  lemma {:induction false} MergeAllLeaves(sources: seq<Setting>, path: Path, leaf: Setting)
    requires MergeAll(sources).Some? && leaf.Leaf?
    ensures ValueAt(MergeAll(sources).value, path) == Some(leaf) <==>
              exists i :: 0 <= i < |sources| && ValueAt(sources[i], path) == Some(leaf)
  {
    if sources != [] {
      var rest := sources[1..];
      MergeAllLeaves(rest, path, leaf);
      MergedLeaves(sources[0], MergeAll(rest).value, path, leaf);
      assert sources == [sources[0]] + rest;
      assert forall i :: 0 <= i < |rest| ==> rest[i] == sources[i + 1];
    }
  }

  /**
   * The settings files merge exactly when no path is bound in two of them other than as a table in both; then
   * the leaves of the result are the leaves of the files.
   */
  lemma {:induction false} MergeOfSources(g: Grouping)
    requires forall i :: 0 <= i < |SourcesOf(g)| ==> SourcesOf(g)[i].Table?
    ensures MergeGrouped(g).Some? <==> NoOverlap(SourcesOf(g))
    ensures MergeGrouped(g).Some? ==> forall path, leaf: Setting | leaf.Leaf? ::
              ValueAt(MergeGrouped(g).value, path) == Some(leaf)
              <==> exists i :: 0 <= i < |SourcesOf(g)| && ValueAt(SourcesOf(g)[i], path) == Some(leaf)
  {
    var sources := SourcesOf(g);
    GroupingIsMergeAll(g);
    MergeAllIffCompatible(sources);
    forall i, j | 0 <= i < j < |sources|
      ensures Compatible(sources[i], sources[j]) <==> forall path :: !Conflict(sources[i], sources[j], path)
    {
      MergesIffNoConflict(sources[i], sources[j]);
    }
    if MergeGrouped(g).Some? {
      forall path, leaf: Setting | leaf.Leaf?
        ensures ValueAt(MergeGrouped(g).value, path) == Some(leaf)
            <==> exists i :: 0 <= i < |sources| && ValueAt(sources[i], path) == Some(leaf)
      {
        MergeAllLeaves(sources, path, leaf);
      }
    }
  }

  lemma {:induction false} ConflictOfMerge(a: Setting, b: Setting, c: Setting, path: Path)
    requires Compatible(a, b) && Conflict(Merge(a, b), c, path)
    ensures Conflict(a, c, path) || Conflict(b, c, path)
  {
    MergedLookup(a, b, path);
  }

  // ----- the program -----

  /** What the merge holds under a key once the second table's entry for it has been taken in. */
  ghost predicate Taken(first: Setting, second: Setting, key: string, merged: map<string, Setting>)
    requires first.Table? && second.Table? && key in second.entries
  {
    && (key in first.entries ==> Compatible(first.entries[key], second.entries[key]))
    && key in merged
    && merged[key]
       == if key in first.entries then Merge(first.entries[key], second.entries[key]) else second.entries[key]
  }

  /** Unites two tables, or reports a path bound in both; the entries of the second are taken in any order. */
  method MergeSettings(first: Setting, second: Setting, parentPath: Path) returns (r: Result<Setting, Path>)
    requires first.Table? && second.Table?
    ensures r.Ok? <==> Compatible(first, second)
    ensures r.Ok? ==> r.value == Merge(first, second)
    ensures r.Err? ==> parentPath <= r.error && Conflict(first, second, r.error[|parentPath|..])
    decreases second
  {
    var merged := first.entries;
    var rest := second.entries.Keys;
    while rest != {}
      invariant rest <= second.entries.Keys
      invariant merged.Keys == first.entries.Keys + (second.entries.Keys - rest)
      invariant forall k <- first.entries | k !in second.entries || k in rest :: merged[k] == first.entries[k]
      invariant forall k <- second.entries.Keys - rest :: Taken(first, second, k, merged)
      decreases rest
    {
      var key :| key in rest;
      ghost var before := merged;
      var currentPath := parentPath + [key];
      var secondValue := second.entries[key];
      if key !in merged {
        merged := merged[key := secondValue];
      } else {
        var firstValue := merged[key];
        if !(firstValue.Table? && secondValue.Table?) {
          assert Conflict(first, second, [key]);
          assert currentPath[|parentPath|..] == [key];
          return Err(currentPath);
        }
        var below := MergeSettings(firstValue, secondValue, currentPath);
        if below.Err? {
          var inner := below.error[|currentPath|..];
          assert below.error[|parentPath|..] == [key] + inner;
          return below;
        }
        merged := merged[key := below.value];
      }
      forall k <- second.entries.Keys - rest
        ensures Taken(first, second, k, merged)
      {
        assert Taken(first, second, k, before) && merged[k] == before[k];
      }
      rest := rest - {key};
    }
    assert second.entries.Keys - rest == second.entries.Keys;
    assert forall k <- second.entries :: Taken(first, second, k, merged);
    assert Merge(first, second).entries == merged;
    return Ok(Table(merged));
  }

  /** One source onto what has been merged so far; a reported path is bound in that source and in an earlier one. */
  method MergeNext(ghost sources: seq<Setting>, merged: Setting, next: Setting) returns (r: Result<Setting, Path>)
    requires MergeAll(sources) == Some(merged) && next.Table?
    ensures match r
            case Ok(value) => MergeAll(sources + [next]) == Some(value)
            case Err(path) =>
              && MergeAll(sources + [next]) == None
              && exists i :: 0 <= i < |sources| && Conflict(sources[i], next, path)
  {
    r := MergeSettings(merged, next, []);
    MergeAllConcat(sources, [next]);
    EmptyIsNeutral(Source(next));
    assert [next][1..] == [];
    if r.Err? {
      assert r.error[0..] == r.error;
      ConflictWithOne(sources, next, r.error);
    }
  }

  lemma {:induction false} ConflictWithOne(sources: seq<Setting>, next: Setting, path: Path)
    requires MergeAll(sources).Some? && Conflict(MergeAll(sources).value, next, path) && next.Table?
    ensures exists i :: 0 <= i < |sources| && Conflict(sources[i], next, path)
  {
    if sources != [] {
      var rest := MergeAll(sources[1..]).value;
      ConflictOfMerge(sources[0], rest, next, path);
      if !Conflict(sources[0], next, path) {
        ConflictWithOne(sources[1..], next, path);
        var i :| 0 <= i < |sources[1..]| && Conflict(sources[1..][i], next, path);
        assert sources[i + 1] == sources[1..][i];
      }
    }
  }

  /** The path is bound in two of the sources, and not to a table in both. */
  ghost predicate OverlapsTwo(sources: seq<Setting>, path: Path) {
    exists i, j :: 0 <= i < j < |sources| && Conflict(sources[i], sources[j], path)
  }

  lemma {:induction false} OverlapFails(sources: seq<Setting>, next: Setting, later: seq<Setting>, all: seq<Setting>,
      path: Path)
    requires MergeAll(sources + [next]) == None && all == sources + [next] + later
    requires exists i :: 0 <= i < |sources| && Conflict(sources[i], next, path)
    ensures MergeAll(all) == None && OverlapsTwo(all, path)
  {
    MergeAllConcat(sources + [next], later);
    var i :| 0 <= i < |sources| && Conflict(sources[i], next, path);
    assert all[i] == sources[i] && all[|sources|] == next;
  }

  /** One more of the given sources; if it conflicts, the sources do not merge at all. */
  method MergeOneMore(ghost all: seq<Setting>, ghost n: nat, merged: Setting, next: Setting)
    returns (r: Result<Setting, Path>)
    requires n < |all| && MergeAll(all[..n]) == Some(merged) && next == all[n] && next.Table?
    ensures r.Ok? ==> MergeAll(all[..n + 1]) == Some(r.value)
    ensures r.Err? ==> MergeAll(all) == None && OverlapsTwo(all, r.error)
  {
    r := MergeNext(all[..n], merged, next);
    assert all[..n] + [next] == all[..n + 1];
    if r.Err? {
      OverlapFails(all[..n], next, all[n + 1..], all, r.error);
    }
  }

  /** `provide`: into the application's file the browser, extract, manager and execution files are merged in turn. */
  method MergeSources(app: Setting, browser: Setting, extract: Setting, manager: Setting, execution: Setting)
    returns (r: Result<Setting, Path>)
    requires app.Table? && browser.Table? && extract.Table? && manager.Table? && execution.Table?
    ensures var sources := [app, browser, extract, manager, execution];
            match r
            case Ok(merged) => MergeAll(sources) == Some(merged)
            case Err(path) => MergeAll(sources) == None && OverlapsTwo(sources, path)
  {
    ghost var all := [app, browser, extract, manager, execution];
    EmptyIsNeutral(Source(app));
    assert all[..1] == [app] && [app][1..] == [];
    r := MergeOneMore(all, 1, app, browser);
    if r.Ok? {
      r := MergeOneMore(all, 2, r.value, extract);
    }
    if r.Ok? {
      r := MergeOneMore(all, 3, r.value, manager);
    }
    if r.Ok? {
      r := MergeOneMore(all, 4, r.value, execution);
    }
    assert all[..5] == all;
  }
}
