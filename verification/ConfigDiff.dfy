/** src/api/diagnostics.py: what config_diff reports about two configuration trees. */
module ConfigDiff {

  /** A configuration value: None, a dict, or anything else, as far as == tells it apart. */
  datatype Value = Nil | Leaf(text: string) | Dict(entries: map<string, Value>)

  type Path = seq<string>

  datatype Change = Change(path: Path, was: Value, now: Value)

  /** dict.get */
  function Get(v: Value, key: string): (r: Value)
    requires v.Dict?
    ensures r != Nil ==> r < v
  {
    if key in v.entries then v.entries[key] else Nil
  }

  /** What one reads by following the keys of a path. */
  function At(v: Value, path: Path): Value
    decreases |path|
  {
    if |path| == 0 then v
    else if v.Dict? then At(Get(v, path[0]), path[1..])
    else Nil
  }

  function Put(v: Value, path: Path, value: Value): Value
    decreases |path|
  {
    if |path| == 0 then value
    else if v.Dict? then Dict(v.entries[path[0] := Put(Get(v, path[0]), path[1..], value)])
    else Dict(map[path[0] := Put(Nil, path[1..], value)])
  }

  /** Two values read alike when no path tells them apart; a missing key counts as None. */
  predicate SameKind(a: Value, b: Value) {
    a == b || (a.Dict? && b.Dict?)
  }

  ghost predicate Agree(a: Value, b: Value) {
    forall path: Path :: SameKind(At(a, path), At(b, path))
  }

  /** The paths the diff lists: both trees have dicts all the way to it, and differ there. */
  predicate Reports(d: Value, c: Value, path: Path)
    decreases |path|
  {
    if |path| == 0 then !SameKind(d, c)
    else d.Dict? && c.Dict? && Reports(Get(d, path[0]), Get(c, path[0]), path[1..])
  }

  /** Reading follows the entries of the dicts, key by key; whatever is missing reads as None. */
  lemma AtOnFields(v: Value, key: string, path: Path)
    ensures At(v, []) == v
    ensures v.Dict? && key in v.entries ==> At(v, [key] + path) == At(v.entries[key], path)
    ensures v.Dict? && key !in v.entries ==> At(v, [key] + path) == At(Nil, path) == Nil
    ensures !v.Dict? ==> At(v, [key] + path) == Nil
  {
    assert ([key] + path)[1..] == path;
    NilReadsNil(path);
  }

  lemma NilReadsNil(path: Path)
    ensures At(Nil, path) == Nil
  {
  }

  /** A path is reported exactly when both trees have dicts above it, and read differently at it without
      both having a dict there. */
  lemma {:induction false} ReportsOnFields(d: Value, c: Value, path: Path)
    ensures Reports(d, c, path) <==>
              && (forall n :: 0 <= n < |path| ==> At(d, path[..n]).Dict? && At(c, path[..n]).Dict?)
              && At(d, path) != At(c, path) && !(At(d, path).Dict? && At(c, path).Dict?)
    decreases |path|
  {
    if |path| == 0 {
    } else {
      assert path[..0] == [];
      if d.Dict? && c.Dict? {
        ReportsOnFields(Get(d, path[0]), Get(c, path[0]), path[1..]);
        DictsAbove(d, c, path);
      }
    }
  }

  /** The dicts above a path are the root and those above its rest. */
  lemma DictsAbove(d: Value, c: Value, path: Path)
    requires d.Dict? && c.Dict? && |path| > 0
    ensures (forall n :: 0 <= n < |path| ==> At(d, path[..n]).Dict? && At(c, path[..n]).Dict?)
            <==> (forall n :: 0 <= n < |path| - 1 ==>
                    At(Get(d, path[0]), path[1..][..n]).Dict? && At(Get(c, path[0]), path[1..][..n]).Dict?)
  {
    var rest := path[1..];
    forall n | 0 <= n < |rest|
      ensures At(d, path[..n + 1]) == At(Get(d, path[0]), rest[..n])
      ensures At(c, path[..n + 1]) == At(Get(c, path[0]), rest[..n])
    {
      assert path[..n + 1][1..] == rest[..n];
    }
    forall n | 0 < n < |path|
      ensures At(d, path[..n]) == At(Get(d, path[0]), rest[..n - 1])
      ensures At(c, path[..n]) == At(Get(c, path[0]), rest[..n - 1])
    {
      assert path[..n][1..] == rest[..n - 1];
    }
    assert path[..0] == [];
  }

  ghost predicate ReportsNothing(d: Value, c: Value) {
    forall path: Path :: !Reports(d, c, path)
  }

  predicate HasPath(changes: seq<Change>, path: Path) {
    exists i :: 0 <= i < |changes| && changes[i].path == path
  }

  predicate ChangeOk(prefix: Path, d: Value, c: Value, change: Change) {
    && prefix <= change.path
    && Reports(d, c, change.path[|prefix|..])
    && change.was == At(d, change.path[|prefix|..]) && change.now == At(c, change.path[|prefix|..])
  }

  predicate DistinctPaths(changes: seq<Change>) {
    forall i, j :: 0 <= i < j < |changes| ==> changes[i].path != changes[j].path
  }

  /** `changes` lists each reported path once, in any order, with what it reads in either tree. */
  ghost predicate Lists(prefix: Path, d: Value, c: Value, changes: seq<Change>) {
    && (forall i :: 0 <= i < |changes| ==> ChangeOk(prefix, d, c, changes[i]))
    && (forall path: Path :: Reports(d, c, path) ==> HasPath(changes, prefix + path))
    && DistinctPaths(changes)
  }

  // ----- What the reported paths mean -----

  lemma {:induction false} ReportedReads(d: Value, c: Value, path: Path)
    requires Reports(d, c, path)
    ensures !SameKind(At(d, path), At(c, path))
    decreases |path|
  {
    if |path| == 0 {
    } else {
      ReportedReads(Get(d, path[0]), Get(c, path[0]), path[1..]);
    }
  }

  lemma {:induction false} DifferenceReported(d: Value, c: Value, path: Path) returns (n: nat)
    requires !SameKind(At(d, path), At(c, path))
    ensures n <= |path| && Reports(d, c, path[..n])
    decreases |path|
  {
    if !SameKind(d, c) {
      n := 0;
    } else if d.Dict? && c.Dict? && |path| > 0 {
      n := DifferenceReported(Get(d, path[0]), Get(c, path[0]), path[1..]);
      n := n + 1;
      assert path[..n][1..] == path[1..][..n - 1];
    }
  }

  /** Nothing is reported exactly when no path tells the trees apart. */
  lemma NothingReportedIffAgree(d: Value, c: Value)
    ensures ReportsNothing(d, c) <==> Agree(d, c)
  {
    if !Agree(d, c) {
      var path: Path :| !SameKind(At(d, path), At(c, path));
      var n := DifferenceReported(d, c, path);
      assert Reports(d, c, path[..n]);
    }
    if !ReportsNothing(d, c) {
      var path: Path :| Reports(d, c, path);
      ReportedReads(d, c, path);
    }
  }

  /** has_customization */
  lemma EmptyDiffIffAgree(d: Value, c: Value, changes: seq<Change>)
    requires Lists([], d, c, changes)
    ensures changes == [] <==> Agree(d, c)
  {
    NothingReportedIffAgree(d, c);
    if changes != [] {
      assert ChangeOk([], d, c, changes[0]);
      assert Reports(d, c, changes[0].path[0..]);
      assert !ReportsNothing(d, c);
    } else {
      forall path: Path
        ensures !Reports(d, c, path)
      {
        assert Reports(d, c, path) ==> HasPath(changes, [] + path);
      }
    }
  }

  lemma {:induction false} NoReportedPrefix(d: Value, c: Value, p: Path, q: Path)
    requires Reports(d, c, p) && Reports(d, c, q) && p <= q
    ensures p == q
    decreases |p|
  {
    if |p| == 0 {
    } else {
      assert p[0] == q[0] && p[1..] <= q[1..];
      NoReportedPrefix(Get(d, p[0]), Get(c, p[0]), p[1..], q[1..]);
      assert p == [p[0]] + p[1..] && q == [q[0]] + q[1..];
    }
  }

  // ----- Patching -----

  /** Write the new value of each change into a tree, one after the other. */
  function Patch(d: Value, changes: seq<Change>): Value
    decreases |changes|
  {
    if |changes| == 0 then d else Patch(Put(d, changes[0].path, changes[0].now), changes[1..])
  }

  lemma {:induction false} NothingToReport(c: Value, path: Path)
    ensures !Reports(c, c, path)
    decreases |path|
  {
    if |path| > 0 && c.Dict? {
      NothingToReport(Get(c, path[0]), path[1..]);
    }
  }

  /** Writing one reported value removes that path from the report, and changes nothing else in it. */
  lemma {:induction false} PutSettles(d: Value, c: Value, p: Path, q: Path)
    requires Reports(d, c, p)
    ensures Reports(Put(d, p, At(c, p)), c, q) <==> Reports(d, c, q) && q != p
    decreases |p|
  {
    if |p| == 0 {
      NothingToReport(c, q);
    } else if |q| > 0 {
      if q[0] == p[0] {
        PutSettles(Get(d, p[0]), Get(c, p[0]), p[1..], q[1..]);
        assert p == [p[0]] + p[1..] && q == [q[0]] + q[1..];
      }
    }
  }

  /** The changes list exactly the reported paths, with the current values. */
  ghost predicate Settles(d: Value, c: Value, changes: seq<Change>) {
    && (forall i :: 0 <= i < |changes| ==> Reports(d, c, changes[i].path) && changes[i].now == At(c, changes[i].path))
    && (forall path: Path :: Reports(d, c, path) ==> HasPath(changes, path))
    && DistinctPaths(changes)
  }

  lemma SettlesRest(d: Value, c: Value, changes: seq<Change>)
    requires Settles(d, c, changes) && changes != []
    ensures Settles(Put(d, changes[0].path, changes[0].now), c, changes[1..])
  {
    var first, rest := changes[0], changes[1..];
    var next := Put(d, first.path, first.now);
    forall i | 0 <= i < |rest|
      ensures Reports(next, c, rest[i].path) && rest[i].now == At(c, rest[i].path)
    {
      assert rest[i] == changes[i + 1];
      PutSettles(d, c, first.path, rest[i].path);
    }
    forall path: Path | Reports(next, c, path)
      ensures HasPath(rest, path)
    {
      PutSettles(d, c, first.path, path);
      var i :| 0 <= i < |changes| && changes[i].path == path;
      assert rest[i - 1].path == path;
    }
  }

  lemma {:induction false} PatchSettles(d: Value, c: Value, changes: seq<Change>)
    requires Settles(d, c, changes)
    ensures Agree(Patch(d, changes), c)
    decreases |changes|
  {
    if |changes| == 0 {
      NothingReportedIffAgree(d, c);
      assert forall path: Path :: Reports(d, c, path) ==> HasPath(changes, path);
    } else {
      SettlesRest(d, c, changes);
      PatchSettles(Put(d, changes[0].path, changes[0].now), c, changes[1..]);
    }
  }

  /** Writing the reported values into the default tree, in whatever order they were listed, gives a
      tree that no path tells apart from the current one. */
  lemma PatchYieldsCurrent(d: Value, c: Value, changes: seq<Change>)
    requires Lists([], d, c, changes)
    ensures Agree(Patch(d, changes), c)
  {
    forall i | 0 <= i < |changes|
      ensures Reports(d, c, changes[i].path) && changes[i].now == At(c, changes[i].path)
    {
      assert ChangeOk([], d, c, changes[i]) && changes[i].path[0..] == changes[i].path;
    }
    forall path: Path | Reports(d, c, path)
      ensures HasPath(changes, path)
    {
      assert [] + path == path;
    }
    PatchSettles(d, c, changes);
  }

  // ----- Names -----

  /** The "key" of a change: the keys of its path joined with dots. */
  function Dotted(path: Path): string {
    if |path| == 0 then ""
    else
      var front, last := Dotted(path[..|path| - 1]), path[|path| - 1];
      if front == "" then last else front + "." + last
  }

  lemma DottedOnFields(path: Path, key: string)
    ensures Dotted([]) == "" && Dotted([key]) == key
    ensures Dotted(path + [key]) == if Dotted(path) == "" then key else Dotted(path) + "." + key
  {
    assert (path + [key])[..|path|] == path && [key][..0] == [];
  }

  predicate PlainKeys(path: Path) {
    forall i :: 0 <= i < |path| ==> path[i] != "" && '.' !in path[i]
  }

  lemma {:induction false} DottedNonempty(path: Path)
    requires PlainKeys(path) && |path| > 0
    ensures Dotted(path) != ""
  {
  }

  lemma LastKey(front: string, last: string, front': string, last': string)
    requires front + "." + last == front' + "." + last'
    requires '.' !in last && '.' !in last'
    ensures front == front' && last == last'
  {
    var s, t := front + "." + last, front' + "." + last';
    assert s[|front|] == '.' && t[|front'|] == '.';
    assert s[..|front|] == front && t[..|front'|] == front';
    assert s[|front| + 1..] == last && t[|front'| + 1..] == last';
  }

  lemma NoDotInside(front: string, last: string, key: string)
    requires '.' !in key
    ensures front + "." + last != key
  {
  }

  /** While keys are not empty and hold no dot, the name of a change determines its path. */
  lemma {:induction false} DottedInjective(p: Path, q: Path)
    requires PlainKeys(p) && PlainKeys(q) && Dotted(p) == Dotted(q)
    ensures p == q
    decreases |p|
  {
    if |p| == 0 || |q| == 0 {
      if |p| > 0 {
        DottedNonempty(p);
      }
      if |q| > 0 {
        DottedNonempty(q);
      }
    } else {
      var front, front' := p[..|p| - 1], q[..|q| - 1];
      var last, last' := p[|p| - 1], q[|q| - 1];
      if |front| > 0 {
        DottedNonempty(front);
      }
      if |front'| > 0 {
        DottedNonempty(front');
      }
      if |front| > 0 && |front'| > 0 {
        LastKey(Dotted(front), last, Dotted(front'), last');
        DottedInjective(front, front');
      } else if |front| > 0 {
        NoDotInside(Dotted(front), last, last');
      } else if |front'| > 0 {
        NoDotInside(Dotted(front'), last', last);
      }
      assert p == front + [last] && q == front' + [last'];
    }
  }

  /** A key that holds a dot can take the name of another path, and both can be reported. */
  lemma DottedAmbiguous(first: string, key: string) returns (d: Value, c: Value, p: Path, q: Path)
    requires first != ""
    ensures Reports(d, c, p) && Reports(d, c, q) && p != q && Dotted(p) == Dotted(q)
  {
    p, q := [first, key], [first + "." + key];
    d := Dict(map[first := Dict(map[]), q[0] := Nil]);
    c := Dict(map[first := Dict(map[key := Leaf("")]), q[0] := Leaf("")]);
    assert |first| < |q[0]|;
    assert p[..1] == [first] && [first][..0] == [] && q[..0] == [];
    assert p[1..] == [key] && [key][1..] == [] && q[1..] == [];
    assert Reports(Get(d, p[0]), Get(c, p[0]), [key]);
  }

  // ----- The code -----

  lemma ListsKey(prefix: Path, key: string, d: Value, c: Value, changes: seq<Change>, i: nat)
    requires d.Dict? && c.Dict? && i < |changes|
    requires ChangeOk(prefix + [key], Get(d, key), Get(c, key), changes[i])
    ensures ChangeOk(prefix, d, c, changes[i]) && |prefix| < |changes[i].path| && changes[i].path[|prefix|] == key
  {
  }

  /** A change under one of the keys already visited. */
  predicate Visited(prefix: Path, d: Value, c: Value, change: Change, todo: set<string>) {
    ChangeOk(prefix, d, c, change) && |prefix| < |change.path| && change.path[|prefix|] !in todo
  }

  ghost predicate Covered(prefix: Path, d: Value, c: Value, changes: seq<Change>, todo: set<string>) {
    forall path: Path :: Reports(d, c, path) && |path| > 0 && path[0] !in todo ==> HasPath(changes, prefix + path)
  }

  /** The changes under the keys outside `todo` have been listed. */
  ghost predicate ListsBut(prefix: Path, d: Value, c: Value, changes: seq<Change>, todo: set<string>) {
    && (forall i :: 0 <= i < |changes| ==> Visited(prefix, d, c, changes[i], todo))
    && Covered(prefix, d, c, changes, todo)
    && DistinctPaths(changes)
  }

  lemma HasPathConcat(a: seq<Change>, b: seq<Change>, path: Path)
    ensures HasPath(a + b, path) <==> HasPath(a, path) || HasPath(b, path)
  {
    if HasPath(a, path) {
      var i :| 0 <= i < |a| && a[i].path == path;
      assert (a + b)[i].path == path;
    }
    if HasPath(b, path) {
      var i :| 0 <= i < |b| && b[i].path == path;
      assert (a + b)[|a| + i].path == path;
    }
  }

  lemma CoversOneMore(prefix: Path, key: string, d: Value, c: Value, before: seq<Change>, more: seq<Change>, todo: set<string>)
    requires d.Dict? && c.Dict?
    requires Covered(prefix, d, c, before, todo)
    requires Lists(prefix + [key], Get(d, key), Get(c, key), more)
    ensures Covered(prefix, d, c, before + more, todo - {key})
  {
    forall path: Path | Reports(d, c, path) && |path| > 0 && path[0] !in todo - {key}
      ensures HasPath(before + more, prefix + path)
    {
      if path[0] == key {
        assert Reports(Get(d, key), Get(c, key), path[1..]);
        assert prefix + [key] + path[1..] == prefix + path;
      }
      HasPathConcat(before, more, prefix + path);
    }
  }

  lemma ListsOneMore(prefix: Path, key: string, d: Value, c: Value, before: seq<Change>, more: seq<Change>, todo: set<string>)
    requires d.Dict? && c.Dict? && key in todo
    requires ListsBut(prefix, d, c, before, todo)
    requires Lists(prefix + [key], Get(d, key), Get(c, key), more)
    ensures ListsBut(prefix, d, c, before + more, todo - {key})
  {
    forall i | 0 <= i < |more|
      ensures Visited(prefix, d, c, more[i], todo - {key}) && more[i].path[|prefix|] == key
    {
      ListsKey(prefix, key, d, c, more, i);
    }
    CoversOneMore(prefix, key, d, c, before, more, todo);
  }

  lemma OneChange(prefix: Path, d: Value, c: Value)
    requires !SameKind(d, c)
    ensures Lists(prefix, d, c, [Change(prefix, d, c)])
  {
    assert prefix[|prefix|..] == [];
    forall path: Path | Reports(d, c, path)
      ensures HasPath([Change(prefix, d, c)], prefix + path)
    {
      assert path == [] && prefix + path == prefix;
      assert [Change(prefix, d, c)][0].path == prefix + path;
    }
  }

  /** _diff: visits the keys of both dicts in any order. */
  method Diff(d: Value, c: Value, prefix: Path) returns (changes: seq<Change>)
    requires d.Dict? && c.Dict?
    ensures Lists(prefix, d, c, changes)
    decreases d
  {
    changes := [];
    var todo := d.entries.Keys + c.entries.Keys;
    assert forall path: Path :: Reports(d, c, path) && |path| > 0 ==> path[0] in todo;
    while todo != {}
      invariant ListsBut(prefix, d, c, changes, todo)
      decreases todo
    {
      var key :| key in todo;
      var was, now := Get(d, key), Get(c, key);
      var more: seq<Change> := [];
      if was.Dict? && now.Dict? {
        more := Diff(was, now, prefix + [key]);
      } else if was != now {
        more := [Change(prefix + [key], was, now)];
        OneChange(prefix + [key], was, now);
      } else {
        NothingListed(prefix + [key], was);
      }
      ListsOneMore(prefix, key, d, c, changes, more, todo);
      changes := changes + more;
      todo := todo - {key};
    }
  }

  lemma NothingListed(prefix: Path, v: Value)
    ensures Lists(prefix, v, v, [])
  {
    forall path: Path
      ensures !Reports(v, v, path)
    {
      NothingToReport(v, path);
    }
  }
}
