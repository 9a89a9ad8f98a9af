/** src/api/download_plugins.py: DownloadManager, its registry and its chain of fallbacks. */
module Downloads {
  import opened Options
  import opened MergeSorting

  datatype Plugin = Plugin(id: string, priority: int, supportsResume: bool, supportsP2p: bool)

  /** What happens to a plugin when its turn comes: it is not available, it finishes, or it ends in
      another status or an exception. */
  datatype Outcome = Unavailable | Done(progress: string) | Failed(error: string)

  function Priority(p: Plugin): int { p.priority }

  // ----- The registry: a dict, in insertion order -----

  predicate DistinctIds(plugins: seq<Plugin>) {
    forall i, j :: 0 <= i < j < |plugins| ==> plugins[i].id != plugins[j].id
  }

  /** Where an id is in the registry; its length when it is not there. */
  function Position(plugins: seq<Plugin>, id: string): (k: nat)
    ensures k <= |plugins| && (k < |plugins| ==> plugins[k].id == id)
    ensures forall i :: 0 <= i < k ==> plugins[i].id != id
  {
    if |plugins| == 0 || plugins[0].id == id then 0
    else
      var k := Position(plugins[1..], id);
      assert forall i :: 0 < i <= k < |plugins| ==> plugins[i] == plugins[1..][i - 1];
      k + 1
  }

  /** A plugin of a known id takes the place of the one it replaces. */
  function Registered(plugins: seq<Plugin>, p: Plugin): seq<Plugin> {
    var k := Position(plugins, p.id);
    if k < |plugins| then plugins[k := p] else plugins + [p]
  }

  function RegisteredAll(plugins: seq<Plugin>): seq<Plugin> {
    if |plugins| == 0 then [] else Registered(RegisteredAll(plugins[..|plugins| - 1]), plugins[|plugins| - 1])
  }

  function Unregistered(plugins: seq<Plugin>, id: string): seq<Plugin> {
    var k := Position(plugins, id);
    if k < |plugins| then plugins[..k] + plugins[k + 1..] else plugins
  }

  /** Registering adds the plugin, or puts it where the one of its id was; no other moves. */
  lemma RegisteredIs(plugins: seq<Plugin>, p: Plugin)
    requires DistinctIds(plugins)
    ensures DistinctIds(Registered(plugins, p))
    ensures forall q :: q in Registered(plugins, p) <==> q == p || (q in plugins && q.id != p.id)
    ensures |plugins| <= |Registered(plugins, p)|
    ensures forall i :: 0 <= i < |plugins| ==> Registered(plugins, p)[i].id == plugins[i].id
  {
    var k, after := Position(plugins, p.id), Registered(plugins, p);
    assert after[k] == p;
    forall q | q in plugins && q.id != p.id
      ensures q in after
    {
      var i :| 0 <= i < |plugins| && plugins[i] == q;
      assert after[i] == q;
    }
  }

  lemma UnregisteredIs(plugins: seq<Plugin>, id: string)
    requires DistinctIds(plugins)
    ensures DistinctIds(Unregistered(plugins, id))
    ensures forall q :: q in Unregistered(plugins, id) <==> q in plugins && q.id != id
    ensures forall i, j :: 0 <= i < j < |Unregistered(plugins, id)| ==>
              Before(plugins, Unregistered(plugins, id)[i], Unregistered(plugins, id)[j])
  {
    var k, after := Position(plugins, id), Unregistered(plugins, id);
    forall i, j | 0 <= i < j < |after|
      ensures Before(plugins, after[i], after[j])
    {
      var x, y := if i < k then i else i + 1, if j < k then j else j + 1;
      assert plugins[x] == after[i] && plugins[y] == after[j];
    }
  }

  // ----- The order of the chain -----

  /** The plugins that are wanted, in the same order. */
  function Keep(plugins: seq<Plugin>, want: Plugin -> bool): seq<Plugin> {
    if |plugins| == 0 then []
    else
      var last := plugins[|plugins| - 1];
      Keep(plugins[..|plugins| - 1], want) + (if want(last) then [last] else [])
  }

  function Resumes(p: Plugin): bool { p.supportsResume }

  function Restarts(p: Plugin): bool { !p.supportsResume }

  /** The order in which download tries the registered plugins. */
  function Chain(plugins: seq<Plugin>, resume: bool): seq<Plugin> {
    var byPriority := MergeSort(Priority, plugins);
    if resume then Keep(byPriority, Resumes) + Keep(byPriority, Restarts) else byPriority
  }

  ghost predicate Before(s: seq<Plugin>, a: Plugin, b: Plugin) {
    exists i, j :: 0 <= i < j < |s| && s[i] == a && s[j] == b
  }

  /** Smaller priority first, and in registration order where priorities are equal. */
  ghost predicate Outranks(plugins: seq<Plugin>, a: Plugin, b: Plugin) {
    a.priority < b.priority || (a.priority == b.priority && Before(plugins, a, b))
  }

  /** When resuming is asked for, plugins that can resume come before all others. */
  ghost predicate TriedBefore(plugins: seq<Plugin>, resume: bool, a: Plugin, b: Plugin) {
    if resume && a.supportsResume != b.supportsResume then a.supportsResume else Outranks(plugins, a, b)
  }

  /** The orders on the fields of the plugins, and on where they are in the registry. */
  lemma OrdersOnFields(plugins: seq<Plugin>, resume: bool, a: Plugin, b: Plugin)
    ensures TriedBefore(plugins, resume, a, b) <==>
              || (resume && a.supportsResume && !b.supportsResume)
              || ((!resume || a.supportsResume == b.supportsResume)
                  && (|| a.priority < b.priority
                      || (a.priority == b.priority
                          && exists i, j :: 0 <= i < j < |plugins| && plugins[i] == a && plugins[j] == b)))
    ensures Outranks(plugins, a, b) <==> TriedBefore(plugins, false, a, b)
  {
  }

  lemma UniqueSplit<T>(p: seq<T>, v: T, q: seq<T>, p': seq<T>, q': seq<T>)
    requires p + [v] + q == p' + [v] + q' && multiset(p + [v] + q)[v] == 1
    ensures p == p'
  {
    var s := p + [v] + q;
    assert multiset(s) == multiset(p) + multiset{v} + multiset(q);
    assert multiset(p' + [v] + q') == multiset(p') + multiset{v} + multiset(q');
    assert v !in multiset(p) && v !in multiset(p');
    assert v !in p && v !in p' && s[|p|] == v && s[|p'|] == v;
    assert forall i :: 0 <= i < |p| ==> s[i] == p[i];
    assert forall i :: 0 <= i < |p'| ==> s[i] == p'[i];
    assert s[..|p|] == p && s[..|p'|] == p';
  }

  lemma SplitAt<T>(s: seq<T>, j: nat)
    requires j < |s|
    ensures s == s[..j] + [s[j]] + s[j + 1..]
  {
  }

  lemma BucketOfThree(a: seq<Plugin>, v: Plugin, b: seq<Plugin>, k: int)
    requires Priority(v) == k
    ensures Bucket(Priority, a + [v] + b, k) == Bucket(Priority, a, k) + [v] + Bucket(Priority, b, k)
  {
    BucketConcat(Priority, a + [v], b, k);
    BucketConcat(Priority, a, [v], k);
    assert [v][1..] == [];
    assert Bucket(Priority, [v], k) == [v];
  }

  /** Around one of its elements, the bucket of a list is the buckets of the two sides. */
  lemma BucketAround(s: seq<Plugin>, j: nat)
    requires j < |s|
    ensures var k := Priority(s[j]);
            Bucket(Priority, s, k) == Bucket(Priority, s[..j], k) + [s[j]] + Bucket(Priority, s[j + 1..], k)
  {
    SplitAt(s, j);
    BucketOfThree(s[..j], s[j], s[j + 1..], Priority(s[j]));
  }

  lemma {:induction false} DistinctCounts(s: seq<Plugin>, p: Plugin)
    requires DistinctIds(s) && p in s
    ensures multiset(s)[p] == 1
  {
    var front, last := s[..|s| - 1], s[|s| - 1];
    assert s == front + [last];
    if p == last {
      assert p !in front;
    } else {
      DistinctCounts(front, p);
    }
  }

  lemma InBucket(s: seq<Plugin>, x: Plugin)
    ensures x in Bucket(Priority, s, Priority(x)) <==> x in s
  {
    BucketMember(Priority, s, Priority(x), x);
    assert x in multiset(Bucket(Priority, s, Priority(x))) <==> x in multiset(s);
  }

  /** A stable sort lists elements of equal priority in the order of the input. */
  lemma TiesKeepOrder(plugins: seq<Plugin>, r: seq<Plugin>, x: nat, y: nat)
    requires DistinctIds(plugins) && SameBuckets(Priority, plugins, r)
    requires x < y < |r| && Priority(r[x]) == Priority(r[y])
    ensures Before(plugins, r[x], r[y])
  {
    var k, v := Priority(r[y]), r[y];
    StableSortIsPermutation(Priority, plugins, r);
    assert v in multiset(r) && multiset(plugins) == multiset(r);
    var j :| 0 <= j < |plugins| && plugins[j] == v;
    DistinctCounts(plugins, v);
    BucketMember(Priority, plugins, k, v);
    BucketAround(plugins, j);
    BucketAround(r, y);
    assert Bucket(Priority, plugins, k) == Bucket(Priority, r, k);
    UniqueSplit(Bucket(Priority, plugins[..j], k), v, Bucket(Priority, plugins[j + 1..], k),
                Bucket(Priority, r[..y], k), Bucket(Priority, r[y + 1..], k));
    assert r[x] == r[..y][x];
    InBucket(r[..y], r[x]);
    InBucket(plugins[..j], r[x]);
    var i :| 0 <= i < j && plugins[..j][i] == r[x];
    assert plugins[i] == r[x];
  }

  lemma SortedOrder(plugins: seq<Plugin>, x: nat, y: nat)
    requires DistinctIds(plugins) && x < y < |MergeSort(Priority, plugins)|
    ensures Outranks(plugins, MergeSort(Priority, plugins)[x], MergeSort(Priority, plugins)[y])
  {
    var r := MergeSort(Priority, plugins);
    MergeSortIsStableSort(Priority, plugins);
    assert Priority(r[x]) <= Priority(r[y]);
    if Priority(r[x]) == Priority(r[y]) {
      TiesKeepOrder(plugins, r, x, y);
    }
  }

  lemma {:induction false} KeptPositions(s: seq<Plugin>, want: Plugin -> bool, x: nat)
    requires x < |Keep(s, want)|
    ensures Keep(s, want)[x] in s && want(Keep(s, want)[x])
  {
    if x < |Keep(s[..|s| - 1], want)| {
      KeptPositions(s[..|s| - 1], want, x);
    }
  }

  lemma {:induction false} KeepKeepsOrder(s: seq<Plugin>, want: Plugin -> bool, x: nat, y: nat)
    requires x < y < |Keep(s, want)|
    ensures Before(s, Keep(s, want)[x], Keep(s, want)[y])
  {
    var front := s[..|s| - 1];
    if y < |Keep(front, want)| {
      KeepKeepsOrder(front, want, x, y);
      var i, j :| 0 <= i < j < |front| && front[i] == Keep(s, want)[x] && front[j] == Keep(s, want)[y];
      assert s[i] == front[i] && s[j] == front[j];
    } else {
      KeptPositions(front, want, x);
      var i :| 0 <= i < |front| && front[i] == Keep(front, want)[x];
      assert s[i] == Keep(s, want)[x] && s[|s| - 1] == Keep(s, want)[y];
    }
  }

  lemma {:induction false} KeepParts(s: seq<Plugin>)
    ensures multiset(Keep(s, Resumes)) + multiset(Keep(s, Restarts)) == multiset(s)
  {
    if |s| == 0 {
    } else {
      KeepParts(s[..|s| - 1]);
      assert s == s[..|s| - 1] + [s[|s| - 1]];
    }
  }

  lemma ChainIsPermutation(plugins: seq<Plugin>, resume: bool)
    ensures multiset(Chain(plugins, resume)) == multiset(plugins)
  {
    var byPriority := MergeSort(Priority, plugins);
    MergeSortIsStableSort(Priority, plugins);
    StableSortIsPermutation(Priority, plugins, byPriority);
    KeepParts(byPriority);
    assert multiset(Keep(byPriority, Resumes) + Keep(byPriority, Restarts)) == multiset(byPriority);
  }

  lemma KeptOrder(plugins: seq<Plugin>, want: Plugin -> bool, x: nat, y: nat)
    requires DistinctIds(plugins) && x < y < |Keep(MergeSort(Priority, plugins), want)|
    ensures Outranks(plugins, Keep(MergeSort(Priority, plugins), want)[x], Keep(MergeSort(Priority, plugins), want)[y])
  {
    var s := MergeSort(Priority, plugins);
    KeepKeepsOrder(s, want, x, y);
    var i, j :| 0 <= i < j < |s| && s[i] == Keep(s, want)[x] && s[j] == Keep(s, want)[y];
    SortedOrder(plugins, i, j);
  }

  /** The chain is the registered plugins, each once, in the order TriedBefore. */
  lemma ChainOrder(plugins: seq<Plugin>, resume: bool, x: nat, y: nat)
    requires DistinctIds(plugins) && x < y < |Chain(plugins, resume)|
    ensures TriedBefore(plugins, resume, Chain(plugins, resume)[x], Chain(plugins, resume)[y])
  {
    if resume {
      var s := MergeSort(Priority, plugins);
      var n := |Keep(s, Resumes)|;
      if x < n {
        KeptPositions(s, Resumes, x);
      } else {
        KeptPositions(s, Restarts, x - n);
      }
      if y < n {
        KeptPositions(s, Resumes, y);
        KeptOrder(plugins, Resumes, x, y);
      } else {
        KeptPositions(s, Restarts, y - n);
        if x >= n {
          KeptOrder(plugins, Restarts, x - n, y - n);
        }
      }
    } else {
      SortedOrder(plugins, x, y);
    }
  }

  // ----- download -----

  /** The position of the first plugin that finishes, or the length of the list. */
  function FirstDone(chain: seq<Plugin>, run: Plugin -> Outcome): (k: nat)
    ensures k <= |chain| && (k < |chain| ==> run(chain[k]).Done?)
    ensures forall i :: 0 <= i < k ==> !run(chain[i]).Done?
  {
    if |chain| == 0 || run(chain[0]).Done? then 0
    else
      var k := FirstDone(chain[1..], run);
      assert forall i :: 0 < i <= k < |chain| ==> chain[i] == chain[1..][i - 1];
      k + 1
  }

  predicate Started(run: Plugin -> Outcome, p: Plugin) {
    !run(p).Unavailable?
  }

  function Starts(run: Plugin -> Outcome): Plugin -> bool {
    (p: Plugin) => Started(run, p)
  }

  /** The plugins that a walk down the first `n` of the chain starts. */
  function Tried(chain: seq<Plugin>, run: Plugin -> Outcome, n: nat): seq<Plugin>
    requires n <= |chain|
  {
    Keep(chain[..n], Starts(run))
  }

  /** The error of the last plugin that failed, if any was started. */
  function LastError(tried: seq<Plugin>, run: Plugin -> Outcome): Option<string> {
    if |tried| > 0 && run(tried[|tried| - 1]).Failed? then Some(run(tried[|tried| - 1]).error) else None
  }

  lemma FirstDoneComesFirst(plugins: seq<Plugin>, resume: bool, run: Plugin -> Outcome, p: Plugin)
    requires DistinctIds(plugins) && p in plugins && run(p).Done?
    ensures var chain := Chain(plugins, resume);
            var k := FirstDone(chain, run);
            k < |chain| && (p == chain[k] || TriedBefore(plugins, resume, chain[k], p))
  {
    var chain := Chain(plugins, resume);
    var k := FirstDone(chain, run);
    InChain(plugins, resume, p);
    var i :| 0 <= i < |chain| && chain[i] == p;
    if k < i {
      ChainOrder(plugins, resume, k, i);
    }
  }

  /** download with no plugin_id succeeds exactly when some registered plugin would, and then with the
      one of those that the order TriedBefore puts first. */
  lemma DownloadPicksFirst(plugins: seq<Plugin>, resume: bool, run: Plugin -> Outcome)
    requires DistinctIds(plugins)
    ensures var chain := Chain(plugins, resume);
            var k := FirstDone(chain, run);
            && (k < |chain| ==> chain[k] in plugins)
            && forall p :: p in plugins && run(p).Done? ==>
                 k < |chain| && (p == chain[k] || TriedBefore(plugins, resume, chain[k], p))
  {
    var chain := Chain(plugins, resume);
    var k := FirstDone(chain, run);
    forall p | p in plugins && run(p).Done?
      ensures k < |chain| && (p == chain[k] || TriedBefore(plugins, resume, chain[k], p))
    {
      FirstDoneComesFirst(plugins, resume, run, p);
    }
    if k < |chain| {
      InChain(plugins, resume, chain[k]);
    }
  }

  lemma TriedMember(chain: seq<Plugin>, run: Plugin -> Outcome, n: nat, p: Plugin)
    requires n <= |chain|
    ensures p in Tried(chain, run, n) <==> p in chain[..n] && !run(p).Unavailable?
  {
    var tried := Tried(chain, run, n);
    if p in tried {
      var x :| 0 <= x < |tried| && tried[x] == p;
      KeptPositions(chain[..n], Starts(run), x);
    }
    if p in chain[..n] && !run(p).Unavailable? {
      KeepHas(chain[..n], Starts(run), p);
    }
  }

  /** Where a walk down the first n of the chain has come: the plugins started are in order, and before
      every plugin that is available and has not been. */
  lemma TriedInOrder(plugins: seq<Plugin>, resume: bool, run: Plugin -> Outcome, n: nat, x: nat, y: nat)
    requires DistinctIds(plugins) && n <= |Chain(plugins, resume)|
    requires x < y < |Tried(Chain(plugins, resume), run, n)|
    ensures var tried := Tried(Chain(plugins, resume), run, n); TriedBefore(plugins, resume, tried[x], tried[y])
  {
    var chain := Chain(plugins, resume);
    var front, tried := chain[..n], Tried(chain, run, n);
    KeepKeepsOrder(front, Starts(run), x, y);
    var i, j :| 0 <= i < j < |front| && front[i] == tried[x] && front[j] == tried[y];
    ChainOrder(plugins, resume, i, j);
  }

  lemma TriedBeforeRest(plugins: seq<Plugin>, resume: bool, run: Plugin -> Outcome, n: nat, t: Plugin, p: Plugin)
    requires DistinctIds(plugins) && n <= |Chain(plugins, resume)|
    requires t in Tried(Chain(plugins, resume), run, n)
    requires p in plugins && !run(p).Unavailable? && p !in Tried(Chain(plugins, resume), run, n)
    ensures TriedBefore(plugins, resume, t, p)
  {
    var chain := Chain(plugins, resume);
    TriedMember(chain, run, n, t);
    TriedMember(chain, run, n, p);
    InChain(plugins, resume, p);
    var i :| 0 <= i < n && chain[..n][i] == t;
    var j :| 0 <= j < |chain| && chain[j] == p;
    assert forall m :: 0 <= m < n ==> chain[..n][m] == chain[m];
    ChainOrder(plugins, resume, i, j);
  }

  /** The last plugin started is the one that finishes, and the others have failed. */
  lemma LastTriedFinishes(chain: seq<Plugin>, run: Plugin -> Outcome)
    ensures var k := FirstDone(chain, run);
            var tried := Tried(chain, run, if k < |chain| then k + 1 else k);
            && (k < |chain| ==> tried != [] && tried[|tried| - 1] == chain[k])
            && forall x :: 0 <= x < (if k < |chain| then |tried| - 1 else |tried|) ==> run(tried[x]).Failed?
  {
    var k := FirstDone(chain, run);
    var before := Tried(chain, run, k);
    if k < |chain| {
      OneMoreTried(chain, run, k);
    }
    forall x | 0 <= x < |before|
      ensures run(before[x]).Failed?
    {
      TriedMember(chain, run, k, before[x]);
    }
  }

  /** What TryEach makes of a chain. */
  predicate Walked(chain: seq<Plugin>, run: Plugin -> Outcome, result: DownloadResult, tried: seq<Plugin>) {
    var k := FirstDone(chain, run);
    && tried == Tried(chain, run, if k < |chain| then k + 1 else k)
    && result == if k < |chain| then Finished(run(chain[k]).progress) else AllFailed(LastError(tried, run))
  }

  /** What download does with no plugin_id, told on the registry: plugins are started in the order
      TriedBefore, none that is available is passed over, until one finishes or all have failed. */
  lemma DownloadWalks(plugins: seq<Plugin>, resume: bool, run: Plugin -> Outcome)
    requires DistinctIds(plugins)
    ensures var chain := Chain(plugins, resume);
            var k := FirstDone(chain, run);
            var tried := Tried(chain, run, if k < |chain| then k + 1 else k);
            && (forall p :: p in tried ==> p in plugins && !run(p).Unavailable?)
            && (forall x, y :: 0 <= x < y < |tried| ==> TriedBefore(plugins, resume, tried[x], tried[y]))
            && (forall t, p :: t in tried && p in plugins && !run(p).Unavailable? && p !in tried ==>
                                 TriedBefore(plugins, resume, t, p))
            && (k < |chain| <==> exists p :: p in plugins && run(p).Done?)
            && (k == |chain| ==> forall p :: p in plugins && !run(p).Unavailable? ==> p in tried)
  {
    var chain := Chain(plugins, resume);
    var k := FirstDone(chain, run);
    var n := if k < |chain| then k + 1 else k;
    var tried := Tried(chain, run, n);
    forall p
      ensures p in tried ==> p in plugins && !run(p).Unavailable?
      ensures k == |chain| && p in plugins && !run(p).Unavailable? ==> p in tried
    {
      TriedMember(chain, run, n, p);
      InChain(plugins, resume, p);
      assert chain[..|chain|] == chain;
    }
    forall x, y | 0 <= x < y < |tried|
      ensures TriedBefore(plugins, resume, tried[x], tried[y])
    {
      TriedInOrder(plugins, resume, run, n, x, y);
    }
    forall t, p | t in tried && p in plugins && !run(p).Unavailable? && p !in tried
      ensures TriedBefore(plugins, resume, t, p)
    {
      TriedBeforeRest(plugins, resume, run, n, t, p);
    }
    DownloadPicksFirst(plugins, resume, run);
  }

  lemma InChain(plugins: seq<Plugin>, resume: bool, p: Plugin)
    ensures p in Chain(plugins, resume) <==> p in plugins
  {
    ChainIsPermutation(plugins, resume);
    assert p in multiset(Chain(plugins, resume)) <==> p in multiset(plugins);
  }

  // ----- get_best_plugin -----

  predicate Fits(p: Plugin, needResume: bool, needP2p: bool) {
    (needResume ==> p.supportsResume) && (needP2p ==> p.supportsP2p)
  }

  /** The plugin of least priority among those wanted, the earliest registered of several. */
  ghost predicate BestOf(plugins: seq<Plugin>, want: Plugin -> bool, best: Plugin) {
    && best in plugins && want(best)
    && forall p :: p in plugins && want(p) && p != best ==> Outranks(plugins, best, p)
  }

  lemma {:induction false} KeepHas(s: seq<Plugin>, want: Plugin -> bool, p: Plugin)
    requires p in s && want(p)
    ensures p in Keep(s, want)
  {
    if p != s[|s| - 1] {
      KeepHas(s[..|s| - 1], want, p);
    }
  }

  lemma KeepDistinct(s: seq<Plugin>, want: Plugin -> bool)
    requires DistinctIds(s)
    ensures DistinctIds(Keep(s, want))
  {
    forall x, y | 0 <= x < y < |Keep(s, want)|
      ensures Keep(s, want)[x].id != Keep(s, want)[y].id
    {
      KeepKeepsOrder(s, want, x, y);
    }
  }

  lemma InSorted(s: seq<Plugin>, p: Plugin)
    ensures p in MergeSort(Priority, s) <==> p in s
  {
    MergeSortIsStableSort(Priority, s);
    StableSortIsPermutation(Priority, s, MergeSort(Priority, s));
    assert p in multiset(MergeSort(Priority, s)) <==> p in multiset(s);
  }

  lemma FirstCandidateOutranks(plugins: seq<Plugin>, want: Plugin -> bool, p: Plugin)
    requires DistinctIds(plugins) && p in plugins && want(p)
    ensures var sorted := MergeSort(Priority, Keep(plugins, want));
            sorted != [] && (p == sorted[0] || Outranks(plugins, sorted[0], p))
  {
    var kept := Keep(plugins, want);
    var sorted := MergeSort(Priority, kept);
    KeepDistinct(plugins, want);
    KeepHas(plugins, want, p);
    InSorted(kept, p);
    var i :| 0 <= i < |sorted| && sorted[i] == p;
    if i > 0 {
      SortedOrder(kept, 0, i);
      if sorted[0].priority == p.priority {
        var m, n :| 0 <= m < n < |kept| && kept[m] == sorted[0] && kept[n] == p;
        KeepKeepsOrder(plugins, want, m, n);
      }
    }
  }

  /** The first of the sorted candidates is the best of them among all plugins. */
  lemma FirstCandidateIsBest(plugins: seq<Plugin>, want: Plugin -> bool)
    requires DistinctIds(plugins) && Keep(plugins, want) != []
    ensures var sorted := MergeSort(Priority, Keep(plugins, want)); sorted != [] && BestOf(plugins, want, sorted[0])
  {
    var kept := Keep(plugins, want);
    var sorted := MergeSort(Priority, kept);
    InSorted(kept, kept[0]);
    InSorted(kept, sorted[0]);
    var x :| 0 <= x < |kept| && kept[x] == sorted[0];
    KeptPositions(plugins, want, x);
    forall p | p in plugins && want(p)
      ensures p == sorted[0] || Outranks(plugins, sorted[0], p)
    {
      FirstCandidateOutranks(plugins, want, p);
    }
  }

  /** So is the first of the sorted plugins that is wanted. */
  lemma FirstWantedIsBest(plugins: seq<Plugin>, want: Plugin -> bool, k: nat)
    requires DistinctIds(plugins) && k < |MergeSort(Priority, plugins)|
    requires want(MergeSort(Priority, plugins)[k])
    requires forall i :: 0 <= i < k ==> !want(MergeSort(Priority, plugins)[i])
    ensures BestOf(plugins, want, MergeSort(Priority, plugins)[k])
  {
    var sorted := MergeSort(Priority, plugins);
    InSorted(plugins, sorted[k]);
    forall p | p in plugins && want(p) && p != sorted[k]
      ensures Outranks(plugins, sorted[k], p)
    {
      InSorted(plugins, p);
      var i :| 0 <= i < |sorted| && sorted[i] == p;
      SortedOrder(plugins, k, i);
    }
  }

  // ----- The code -----

  datatype DownloadResult = Finished(progress: string) | NotFound | AllFailed(lastError: Option<string>)

  class DownloadManager {
    var plugins: seq<Plugin>

    ghost predicate Valid()
      reads this
    {
      DistinctIds(plugins)
    }

    constructor (builtins: seq<Plugin>)
      ensures Valid() && plugins == RegisteredAll(builtins)
    {
      plugins := [];
      new;
      for k := 0 to |builtins|
        invariant Valid() && plugins == RegisteredAll(builtins[..k])
      {
        assert builtins[..k + 1][..k] == builtins[..k];
        Register(builtins[k]);
      }
      assert builtins[..|builtins|] == builtins;
    }

    method Register(p: Plugin)
      requires Valid()
      modifies this
      ensures Valid() && plugins == Registered(old(plugins), p)
    {
      RegisteredIs(plugins, p);
      var k := FindPosition(plugins, p.id);
      if k < |plugins| {
        plugins := plugins[..k] + [p] + plugins[k + 1..];
        assert plugins == old(plugins)[k := p];
      } else {
        plugins := plugins + [p];
      }
    }

    method Unregister(id: string)
      requires Valid()
      modifies this
      ensures Valid() && plugins == Unregistered(old(plugins), id)
    {
      UnregisteredIs(plugins, id);
      var k := FindPosition(plugins, id);
      if k < |plugins| {
        plugins := plugins[..k] + plugins[k + 1..];
      }
    }

    /** The best available plugin that fits, or else the best that fits, or none. */
    method GetBestPlugin(available: Plugin -> bool, needResume: bool, needP2p: bool) returns (best: Option<Plugin>)
      requires Valid()
      ensures (exists p :: p in plugins && available(p) && Fits(p, needResume, needP2p)) ==>
                best.Some? && BestOf(plugins, p => available(p) && Fits(p, needResume, needP2p), best.value)
      ensures best.Some? && !available(best.value) ==> BestOf(plugins, p => Fits(p, needResume, needP2p), best.value)
      ensures best == None <==> !exists p :: p in plugins && Fits(p, needResume, needP2p)
      ensures best == None ==> forall p :: p in plugins ==> (needResume && !p.supportsResume) || (needP2p && !p.supportsP2p)
      ensures best.Some? ==>
                && best.value in plugins
                && (needResume ==> best.value.supportsResume) && (needP2p ==> best.value.supportsP2p)
                && forall p :: p in plugins && (needResume ==> p.supportsResume) && (needP2p ==> p.supportsP2p) ==>
                     || p == best.value || (available(best.value) && !available(p))
                     || (available(p) == available(best.value) && Outranks(plugins, best.value, p))
    {
      var wanted := p => available(p) && Fits(p, needResume, needP2p);
      var candidates := Collect(plugins, wanted);
      if candidates == [] {
        NoneKept(plugins, wanted);
        best := FirstThatFits(plugins, p => Fits(p, needResume, needP2p));
        return;
      }
      FirstCandidateIsBest(plugins, wanted);
      var sorted, _ := MergeSortList(Priority, candidates);
      best := Some(sorted[0]);
    }

    /** download with a plugin_id: only the plugin of that id is started. */
    method DownloadNamed(pluginId: string, run: Plugin -> Outcome) returns (result: DownloadResult, tried: seq<Plugin>)
      requires Valid()
      ensures result == NotFound <==> forall p :: p in plugins ==> p.id != pluginId
      ensures result == NotFound ==> tried == []
      ensures forall p :: p in plugins && p.id == pluginId ==>
                match run(p)
                case Done(progress) => result == Finished(progress) && tried == [p]
                case Failed(error) => result == AllFailed(Some(error)) && tried == [p]
                case Unavailable => result == AllFailed(None) && tried == []
    {
      var k := FindPosition(plugins, pluginId);
      if k == |plugins| {
        return NotFound, [];
      }
      result, tried := TryEach([plugins[k]], run);
      NamedResult(plugins, k, run, result, tried);
    }

    /** download without one: the available plugins are started in order until one finishes. `run` is what
        each plugin would do; `tried` are the plugins that were started. */
    method DownloadAny(resume: bool, run: Plugin -> Outcome) returns (result: DownloadResult, tried: seq<Plugin>)
      requires Valid()
      ensures result != NotFound
      ensures forall p :: p in tried ==> p in plugins && !run(p).Unavailable?
      ensures forall x, y :: 0 <= x < y < |tried| ==> TriedBefore(plugins, resume, tried[x], tried[y])
      ensures forall t, p :: t in tried && p in plugins && !run(p).Unavailable? && p !in tried ==>
                  TriedBefore(plugins, resume, t, p)
      ensures forall x :: 0 <= x < |tried| - 1 ==> run(tried[x]).Failed?
      ensures (exists p :: p in plugins && run(p).Done?) ==>
                tried != [] && run(tried[|tried| - 1]).Done? && result == Finished(run(tried[|tried| - 1]).progress)
      ensures !(exists p :: p in plugins && run(p).Done?) ==>
                && (forall p :: p in plugins && !run(p).Unavailable? ==> p in tried && run(p).Failed?)
                && (tried == [] ==> result == AllFailed(None))
                && (tried != [] ==> run(tried[|tried| - 1]).Failed? && result == AllFailed(Some(run(tried[|tried| - 1]).error)))
    {
      var chain := BuildChain(resume);
      result, tried := TryEach(chain, run);
      UnnamedResult(plugins, resume, run, result, tried);
    }

    method BuildChain(resume: bool) returns (chain: seq<Plugin>)
      ensures chain == Chain(plugins, resume)
    {
      var byPriority, _ := MergeSortList(Priority, plugins);
      chain := if resume then Keep(byPriority, Resumes) + Keep(byPriority, Restarts) else byPriority;
    }

    /** An empty plugin_id is none. */
    method Download(resume: bool, pluginId: string, run: Plugin -> Outcome)
      returns (result: DownloadResult, tried: seq<Plugin>)
      requires Valid()
      ensures result == NotFound <==> pluginId != "" && forall p :: p in plugins ==> p.id != pluginId
      ensures result == NotFound ==> tried == []
      ensures pluginId != "" ==>
                forall p :: p in plugins && p.id == pluginId ==>
                  match run(p)
                  case Done(progress) => result == Finished(progress) && tried == [p]
                  case Failed(error) => result == AllFailed(Some(error)) && tried == [p]
                  case Unavailable => result == AllFailed(None) && tried == []
      ensures pluginId == "" ==> forall p :: p in tried ==> p in plugins && !run(p).Unavailable?
      ensures pluginId == "" ==> forall x, y :: 0 <= x < y < |tried| ==> TriedBefore(plugins, resume, tried[x], tried[y])
      ensures pluginId == "" ==> forall t, p :: t in tried && p in plugins && !run(p).Unavailable? && p !in tried ==>
                  TriedBefore(plugins, resume, t, p)
      ensures pluginId == "" ==> forall x :: 0 <= x < |tried| - 1 ==> run(tried[x]).Failed?
      ensures pluginId == "" && (exists p :: p in plugins && run(p).Done?) ==>
                tried != [] && run(tried[|tried| - 1]).Done? && result == Finished(run(tried[|tried| - 1]).progress)
      ensures pluginId == "" && !(exists p :: p in plugins && run(p).Done?) ==>
                && (forall p :: p in plugins && !run(p).Unavailable? ==> p in tried && run(p).Failed?)
                && (tried == [] ==> result == AllFailed(None))
                && (tried != [] ==> run(tried[|tried| - 1]).Failed? && result == AllFailed(Some(run(tried[|tried| - 1]).error)))
    {
      if pluginId != "" {
        result, tried := DownloadNamed(pluginId, run);
      } else {
        result, tried := DownloadAny(resume, run);
      }
    }
  }

  lemma NoneKept(plugins: seq<Plugin>, want: Plugin -> bool)
    requires Keep(plugins, want) == []
    ensures forall p :: p in plugins ==> !want(p)
  {
    forall p | p in plugins
      ensures !want(p)
    {
      if want(p) {
        KeepHas(plugins, want, p);
      }
    }
  }

  lemma OneInChain(p: Plugin, run: Plugin -> Outcome)
    ensures FirstDone([p], run) == if run(p).Done? then 0 else 1
    ensures Tried([p], run, 1) == if run(p).Unavailable? then [] else [p]
  {
    assert [p][1..] == [] && [p][..1] == [p] && [p][..0] == [];
    assert Keep([p], Starts(run)) == Keep([], Starts(run)) + (if Started(run, p) then [p] else []);
  }

  /** What the walk down the chain of a named plugin comes to. */
  lemma NamedResult(plugins: seq<Plugin>, k: nat, run: Plugin -> Outcome, result: DownloadResult, tried: seq<Plugin>)
    requires DistinctIds(plugins) && k < |plugins|
    requires Walked([plugins[k]], run, result, tried)
    ensures forall p :: p in plugins && p.id == plugins[k].id ==>
              match run(p)
              case Done(progress) => result == Finished(progress) && tried == [p]
              case Failed(error) => result == AllFailed(Some(error)) && tried == [p]
              case Unavailable => result == AllFailed(None) && tried == []
  {
    OneInChain(plugins[k], run);
  }

  /** And down the chain of all. */
  lemma UnnamedResult(plugins: seq<Plugin>, resume: bool, run: Plugin -> Outcome, result: DownloadResult, tried: seq<Plugin>)
    requires DistinctIds(plugins) && Walked(Chain(plugins, resume), run, result, tried)
    ensures result != NotFound
    ensures forall p :: p in tried ==> p in plugins && !run(p).Unavailable?
    ensures forall x, y :: 0 <= x < y < |tried| ==> TriedBefore(plugins, resume, tried[x], tried[y])
    ensures forall t, p :: t in tried && p in plugins && !run(p).Unavailable? && p !in tried ==>
              TriedBefore(plugins, resume, t, p)
    ensures (exists p :: p in plugins && run(p).Done?) ==>
              tried != [] && run(tried[|tried| - 1]).Done? && result == Finished(run(tried[|tried| - 1]).progress)
    ensures !(exists p :: p in plugins && run(p).Done?) ==>
              && (forall p :: p in plugins && !run(p).Unavailable? ==> p in tried && run(p).Failed?)
              && (tried == [] ==> result == AllFailed(None))
              && (tried != [] ==> run(tried[|tried| - 1]).Failed? && result == AllFailed(Some(run(tried[|tried| - 1]).error)))
    ensures forall x :: 0 <= x < |tried| - 1 ==> run(tried[x]).Failed?
  {
    DownloadWalks(plugins, resume, run);
    LastTriedFinishes(Chain(plugins, resume), run);
  }

  lemma NoneFits(plugins: seq<Plugin>, want: Plugin -> bool)
    requires forall i :: 0 <= i < |MergeSort(Priority, plugins)| ==> !want(MergeSort(Priority, plugins)[i])
    ensures forall p :: p in plugins ==> !want(p)
  {
    forall p | p in plugins
      ensures !want(p)
    {
      InSorted(plugins, p);
    }
  }

  lemma OneMoreTried(chain: seq<Plugin>, run: Plugin -> Outcome, k: nat)
    requires k < |chain|
    ensures Tried(chain, run, k + 1) == Tried(chain, run, k) + (if Started(run, chain[k]) then [chain[k]] else [])
  {
    assert chain[..k + 1][..k] == chain[..k];
  }

  /** The first loop of get_best_plugin. */
  method Collect(plugins: seq<Plugin>, want: Plugin -> bool) returns (candidates: seq<Plugin>)
    ensures candidates == Keep(plugins, want)
  {
    candidates := [];
    for k := 0 to |plugins|
      invariant candidates == Keep(plugins[..k], want)
    {
      assert plugins[..k + 1][..k] == plugins[..k];
      if want(plugins[k]) {
        candidates := candidates + [plugins[k]];
      }
    }
    assert plugins[..|plugins|] == plugins;
  }

  /** Its second loop, for when no plugin that fits is available. */
  method FirstThatFits(plugins: seq<Plugin>, fits: Plugin -> bool) returns (best: Option<Plugin>)
    requires DistinctIds(plugins)
    ensures best == None <==> forall p :: p in plugins ==> !fits(p)
    ensures best.Some? ==> BestOf(plugins, fits, best.value)
  {
    var byPriority, _ := MergeSortList(Priority, plugins);
    for k := 0 to |byPriority|
      invariant forall i :: 0 <= i < k ==> !fits(byPriority[i])
    {
      if fits(byPriority[k]) {
        FirstWantedIsBest(plugins, fits, k);
        return Some(byPriority[k]);
      }
    }
    NoneFits(plugins, fits);
    best := None;
  }

  /** Where a dict has a key, if it has it. */
  method FindPosition(plugins: seq<Plugin>, id: string) returns (k: nat)
    ensures k == Position(plugins, id)
  {
    k := 0;
    while k < |plugins| && plugins[k].id != id
      invariant k <= Position(plugins, id)
    {
      k := k + 1;
    }
  }

  /** The loop of download. */
  method TryEach(chain: seq<Plugin>, run: Plugin -> Outcome) returns (result: DownloadResult, tried: seq<Plugin>)
    ensures Walked(chain, run, result, tried)
  {
    tried := [];
    var lastError: Option<string> := None;
    for k := 0 to |chain|
      invariant k <= FirstDone(chain, run)
      invariant tried == Tried(chain, run, k) && lastError == LastError(tried, run)
    {
      OneMoreTried(chain, run, k);
      match run(chain[k]) {
        case Unavailable =>
        case Done(progress) =>
          assert k == FirstDone(chain, run);
          return Finished(progress), tried + [chain[k]];
        case Failed(error) =>
          tried := tried + [chain[k]];
          lastError := Some(error);
      }
    }
    result := AllFailed(lastError);
  }
}
