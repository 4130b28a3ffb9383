/** The execution matrix: placing blocks on stages, fusing stages into paths, merging independent stages. */
module ExecMatrix {
  import opened BlockGraph
  import opened Sequences

  /** Blocks that are processed one after the other. */
  type Path = seq<Name>

  /** Paths that may be processed at the same time. */
  type Stage = seq<Path>

  /** The order in which a sequential pass over the stages calls the blocks. */
  function Order(stages: seq<Stage>): seq<Name> {
    Concat(Concat(stages))
  }

  /** One stage with one single-block path for every block of the list. */
  function Singles(order: seq<Name>): seq<Stage> {
    seq(|order|, i requires 0 <= i < |order| => [[order[i]]])
  }

  predicate StageHolds(stage: Stage, name: Name) {
    exists p :: 0 <= p < |stage| && name in stage[p]
  }

  lemma {:induction false} SinglesOrder(order: seq<Name>)
    ensures Concat(Singles(order)) == seq(|order|, i requires 0 <= i < |order| => [order[i]])
    ensures Order(Singles(order)) == order
  {
    if order != [] {
      var rest := order[1..];
      SinglesOrder(rest);
      assert Singles(order)[1..] == Singles(rest);
      var flat := seq(|order|, i requires 0 <= i < |order| => [order[i]]);
      assert flat[1..] == seq(|rest|, i requires 0 <= i < |rest| => [rest[i]]);
      assert Concat(Singles(order)) == [[order[0]]] + flat[1..] == flat;
      assert Concat(flat) == [order[0]] + rest == order;
    }
  }

  // ---- which blocks share a path ----

  /** Only a Sink with at most one input port can continue a path. */
  predicate LeftTerminated(g: Graph, b: Name)
    requires b in g.blocks
  {
    if g.blocks[b].sink then |g.blocks[b].inPorts| > 1 else true
  }

  /** Only a Source with at most one output port can be continued. */
  predicate RightTerminated(g: Graph, b: Name)
    requires b in g.blocks
  {
    if g.blocks[b].source then |g.blocks[b].outPorts| > 1 else true
  }

  /** The connection u -> v is the only one out of u's only port and into v's only port. */
  predicate Fusible(g: Graph, u: Name, v: Name) {
    u in g.blocks && v in g.blocks && !RightTerminated(g, u) && !LeftTerminated(g, v) && Edge(g, u, v)
  }

  /** A connection joins u to v, u has no other out port and v has no other in port. */
  ghost predicate JoinedAlone(g: Graph, u: Name, v: Name) {
    && u in g.blocks && |g.blocks[u].outPorts| <= 1
    && v in g.blocks && |g.blocks[v].inPorts| <= 1
    && exists w :: w in g.wires && w.src == u && w.dst == v
  }

  /** The two tests let exactly these connections pass. */
  lemma FusibleIsJoinedAlone(g: Graph, u: Name, v: Name)
    requires Valid(g)
    ensures Fusible(g, u, v) <==> JoinedAlone(g, u, v)
  {
    if Fusible(g, u, v) {
      var w := EdgeHasWire(g, u, v);
      assert WireFits(g, w);
    }
    if JoinedAlone(g, u, v) {
      var w :| w in g.wires && w.src == u && w.dst == v;
      assert WireFits(g, w) && w.dst in Connections(g, u);
    }
  }

  /** A nonempty run of blocks, each joined to the next by a fusible connection. */
  ghost predicate Chain(g: Graph, path: Path) {
    && path != []
    && forall k :: 0 <= k < |path| - 1 ==> Fusible(g, path[k], path[k + 1])
  }

  ghost predicate Chains(g: Graph, paths: seq<Path>) {
    forall p :: 0 <= p < |paths| ==> Chain(g, paths[p])
  }

  ghost predicate Known(g: Graph, order: seq<Name>) {
    forall b :: b in order ==> b in g.blocks
  }

  function Last(path: Path): Name
    requires path != []
  {
    path[|path| - 1]
  }

  /** Each path of `paths` on a stage of its own. */
  function OnePathEach(paths: seq<Path>): seq<Stage> {
    seq(|paths|, i requires 0 <= i < |paths| => [paths[i]])
  }

  lemma {:induction false} ConcatOnePathEach(paths: seq<Path>)
    ensures Concat(OnePathEach(paths)) == paths
  {
    if paths != [] {
      ConcatOnePathEach(paths[1..]);
      assert OnePathEach(paths)[1..] == OnePathEach(paths[1..]);
      assert OnePathEach(paths)[0] == [paths[0]];
    }
  }

  // ---- what makes a stage list a correct schedule ----

  ghost predicate Independent(g: Graph, p: Path, q: Path) {
    NoEdges(g, p, q) && NoEdges(g, q, p)
  }

  /** No connection joins two paths of the same stage. */
  ghost predicate PathsIndependent(g: Graph, stage: Stage) {
    forall p, q :: 0 <= p < q < |stage| ==> Independent(g, stage[p], stage[q])
  }

  /** Every connection goes forward inside a path or to a strictly later stage. */
  ghost predicate ScheduleSafe(g: Graph, stages: seq<Stage>) {
    && (forall s, p :: 0 <= s < |stages| && 0 <= p < |stages[s]| ==> Topological(g, stages[s][p]))
    && (forall s :: 0 <= s < |stages| ==> PathsIndependent(g, stages[s]))
    && (forall s, t :: 0 <= s < t < |stages| ==> NoEdges(g, Concat(stages[t]), Concat(stages[s])))
  }

  /** Some path of `stage` feeds the first block of `path`, so the two may not share a stage. */
  ghost predicate Feeds(g: Graph, stage: Stage, path: Path) {
    path != [] && exists p :: 0 <= p < |stage| && stage[p] != [] && Edge(g, Last(stage[p]), path[0])
  }

  /** Every stage but the first opens with a path that the stage before it feeds. */
  ghost predicate StagesSeparated(g: Graph, stages: seq<Stage>) {
    forall s :: 0 < s < |stages| ==> stages[s] != [] && Feeds(g, stages[s - 1], stages[s][0])
  }

  /** A connection leads from the end of a path of stage s to the start of the next stage. */
  ghost predicate WireBetween(g: Graph, stages: seq<Stage>, s: nat, w: Wire) {
    && s + 1 < |stages| && stages[s + 1] != [] && stages[s + 1][0] != []
    && w in g.wires && w.dst == stages[s + 1][0][0]
    && exists p :: 0 <= p < |stages[s]| && stages[s][p] != [] && w.src == Last(stages[s][p])
  }

  ghost predicate Separated(g: Graph, stages: seq<Stage>, s: nat) {
    exists w :: WireBetween(g, stages, s, w)
  }

  lemma SeparatedByWires(g: Graph, stages: seq<Stage>)
    requires StagesSeparated(g, stages)
    ensures forall s :: 0 <= s < |stages| - 1 ==> Separated(g, stages, s)
  {
    forall s | 0 <= s < |stages| - 1 ensures Separated(g, stages, s) {
      assert Feeds(g, stages[s + 1 - 1], stages[s + 1][0]);
      var p :| 0 <= p < |stages[s]| && stages[s][p] != [] && Edge(g, Last(stages[s][p]), stages[s + 1][0][0]);
      var w := EdgeHasWire(g, Last(stages[s][p]), stages[s + 1][0][0]);
      assert WireBetween(g, stages, s, w);
    }
  }

  /** No path of the stage ends in a block that feeds the start of a later path of the stage. */
  ghost predicate EndsMissStarts(g: Graph, stage: Stage) {
    forall p, q :: 0 <= p < q < |stage| && stage[p] != [] && stage[q] != [] ==> !Edge(g, Last(stage[p]), stage[q][0])
  }

  ghost predicate NonEmptyPaths(stage: Stage) {
    forall p :: 0 <= p < |stage| ==> stage[p] != []
  }

  // ---- combine_stages ----

  /** u has no fusible connection into any of the paths. */
  ghost predicate NothingToFuse(g: Graph, u: Name, paths: seq<Path>) {
    forall p, k :: 0 <= p < |paths| && 0 <= k < |paths[p]| ==> !Fusible(g, u, paths[p][k])
  }

  /** No path can be continued by a block of a later path. */
  ghost predicate FusedUpTo(g: Graph, paths: seq<Path>, n: nat)
    requires n <= |paths| && Chains(g, paths)
  {
    forall i :: 0 <= i < n ==> NothingToFuse(g, Last(paths[i]), paths[i + 1..])
  }

  /** The conditions under which fusing keeps the dependency order. */
  ghost predicate WellOrdered(g: Graph, order: seq<Name>) {
    Valid(g) && PortsUsedOnce(g) && Distinct(order) && Topological(g, order)
  }

  lemma DistinctFromMultiset<T>(a: seq<T>, b: seq<T>)
    requires multiset(a) == multiset(b) && Distinct(a)
    ensures Distinct(b)
  {
    forall i, j | 0 <= i < j < |b| ensures b[i] != b[j] {
      if b[i] == b[j] {
        TwoOccurrences(b, i, j);
        OneOccurrence(a, b[i]);
        assert false;
      }
    }
  }

  lemma TwoOccurrences<T>(s: seq<T>, i: nat, j: nat)
    requires i < j < |s| && s[i] == s[j]
    ensures multiset(s)[s[i]] >= 2
  {
    assert s == s[..i] + [s[i]] + s[i + 1..j] + [s[j]] + s[j + 1..];
  }

  lemma {:induction false} OneOccurrence<T>(s: seq<T>, x: T)
    requires Distinct(s)
    ensures multiset(s)[x] <= 1
  {
    if s != [] {
      OneOccurrence(s[1..], x);
      assert s == [s[0]] + s[1..];
      assert multiset(s) == multiset{s[0]} + multiset(s[1..]);
      if x == s[0] {
        assert x !in s[1..];
      }
    }
  }

  /** The paths after the single block of path `next` has moved to the end of path `curr`. */
  function Fuse(paths: seq<Path>, curr: nat, next: nat): seq<Path>
    requires curr < next < |paths| && |paths[next]| == 1
  {
    paths[..curr] + [paths[curr] + paths[next]] + paths[curr + 1..next] + paths[next + 1..]
  }

  lemma SplitAtTwo(paths: seq<Path>, curr: nat, next: nat)
    requires curr < next < |paths|
    ensures Concat(paths)
         == Concat(paths[..curr]) + (paths[curr] + (Concat(paths[curr + 1..next]) + (paths[next] + Concat(paths[next + 1..]))))
  {
    ConcatDrop(paths, 0, curr);
    ConcatHead(paths, curr);
    ConcatDrop(paths, curr + 1, next);
    ConcatHead(paths, next);
    assert paths[0..] == paths && paths[0..curr] == paths[..curr];
  }

  lemma FusedConcat(paths: seq<Path>, curr: nat, next: nat)
    requires curr < next < |paths| && |paths[next]| == 1
    ensures Concat(Fuse(paths, curr, next))
         == Concat(paths[..curr]) + (paths[curr] + paths[next]) + (Concat(paths[curr + 1..next]) + Concat(paths[next + 1..]))
  {
    var a, b, c, d := paths[..curr], [paths[curr] + paths[next]], paths[curr + 1..next], paths[next + 1..];
    assert Fuse(paths, curr, next) == a + (b + (c + d));
    ConcatAppend(a, b + (c + d));
    ConcatAppend(b, c + d);
    ConcatAppend(c, d);
    ConcatOne(paths[curr] + paths[next]);
  }

  /** Pulling v forward to right behind its only predecessor u. */
  lemma PullToPredecessor(g: Graph, pre: seq<Name>, u: Name, mid: seq<Name>, v: Name, post: seq<Name>)
    requires Fusible(g, u, v)
    requires Valid(g) && PortsUsedOnce(g)
    requires Distinct(pre + [u] + mid + [v] + post) && Topological(g, pre + [u] + mid + [v] + post)
    ensures Topological(g, pre + [u] + [v] + mid + post)
  {
    var order := pre + [u] + mid + [v] + post;
    forall m | m in mid ensures !Edge(g, m, v) {
      var k :| 0 <= k < |mid| && mid[k] == m;
      assert order[|pre|] == u && order[|pre| + 1 + k] == m;
      if Edge(g, m, v) {
        OneInPortOnePredecessor(g, u, m, v);
        assert false;
      }
    }
    PullForward(g, pre + [u], mid, v, post);
  }

  lemma Regroup<T>(a: seq<T>, b: seq<T>, u: T, mid: seq<T>, v: T, post: seq<T>)
    ensures a + ((b + [u]) + (mid + ([v] + post))) == (a + b) + [u] + mid + [v] + post
    ensures a + ((b + [u]) + [v]) + (mid + post) == (a + b) + [u] + [v] + mid + post
    ensures multiset((a + b) + [u] + mid + [v] + post) == multiset((a + b) + [u] + [v] + mid + post)
  {
  }

  /** Fusing permutes the flattened list and keeps it topological. */
  lemma FuseKeepsOrder(g: Graph, paths: seq<Path>, curr: nat, next: nat)
    requires curr < next < |paths| && |paths[next]| == 1 && paths[curr] != []
    requires Fusible(g, Last(paths[curr]), paths[next][0])
    ensures multiset(Concat(Fuse(paths, curr, next))) == multiset(Concat(paths))
    ensures WellOrdered(g, Concat(paths)) ==> WellOrdered(g, Concat(Fuse(paths, curr, next)))
  {
    SplitAtTwo(paths, curr, next);
    FusedConcat(paths, curr, next);
    var a, mid, post := Concat(paths[..curr]), Concat(paths[curr + 1..next]), Concat(paths[next + 1..]);
    var u, v := Last(paths[curr]), paths[next][0];
    var b := paths[curr][..|paths[curr]| - 1];
    assert paths[next] == [v];
    assert paths[curr] == b + [u];
    Regroup(a, b, u, mid, v, post);
    FuseKeepsOrderOf(g, Concat(paths), Concat(Fuse(paths, curr, next)), a + b, u, mid, v, post);
  }

  lemma FuseKeepsOrderOf(g: Graph, order: seq<Name>, fused: seq<Name>,
                         pre: seq<Name>, u: Name, mid: seq<Name>, v: Name, post: seq<Name>)
    requires Fusible(g, u, v) && multiset(fused) == multiset(order)
    requires order == pre + [u] + mid + [v] + post && fused == pre + [u] + [v] + mid + post
    ensures WellOrdered(g, order) ==> WellOrdered(g, fused)
  {
    if WellOrdered(g, order) {
      PullToPredecessor(g, pre, u, mid, v, post);
      DistinctFromMultiset(order, fused);
    }
  }

  lemma FuseKeepsChains(g: Graph, paths: seq<Path>, curr: nat, next: nat)
    requires curr < next < |paths| && |paths[next]| == 1 && Chains(g, paths)
    requires Fusible(g, Last(paths[curr]), paths[next][0])
    ensures Chains(g, Fuse(paths, curr, next))
  {
    var fused := Fuse(paths, curr, next);
    forall p | 0 <= p < |fused| ensures Chain(g, fused[p]) {
      if p == curr {
        var long := paths[curr] + paths[next];
        forall k | 0 <= k < |long| - 1 ensures Fusible(g, long[k], long[k + 1]) {
          if k < |paths[curr]| - 1 {
            assert Fusible(g, paths[curr][k], paths[curr][k + 1]);
          }
        }
      } else {
        assert fused[p] == paths[if p < next then p else p + 1];
      }
    }
  }

  lemma FuseKeepsDone(g: Graph, paths: seq<Path>, curr: nat, next: nat)
    requires curr < next < |paths| && |paths[next]| == 1 && Chains(g, paths) && FusedUpTo(g, paths, curr)
    requires Chains(g, Fuse(paths, curr, next))
    ensures FusedUpTo(g, Fuse(paths, curr, next), curr)
  {
    var fused := Fuse(paths, curr, next);
    forall i | 0 <= i < curr ensures NothingToFuse(g, Last(fused[i]), fused[i + 1..]) {
      var later := paths[i + 1..];
      var later' := fused[i + 1..];
      var u := Last(paths[i]);
      assert NothingToFuse(g, u, later);
      forall p, k | 0 <= p < |later'| && 0 <= k < |later'[p]| ensures !Fusible(g, u, later'[p][k]) {
        var at := p + i + 1;
        assert later'[p] == fused[at];
        if at == curr {
          if k < |paths[curr]| {
            assert later'[p][k] == later[curr - i - 1][k];
          } else {
            assert later'[p][k] == later[next - i - 1][0];
          }
        } else {
          var from := if at < next then at else at + 1;
          assert fused[at] == paths[from] == later[from - i - 1];
        }
      }
    }
  }

  /** The state of combine_stages between two looks at a following stage. */
  ghost predicate Combining(g: Graph, order: seq<Name>, paths: seq<Path>, curr: nat, next: nat) {
    && curr <= next <= |paths|
    && Chains(g, paths)
    && Known(g, Concat(paths))
    && multiset(Concat(paths)) == multiset(order)
    && (WellOrdered(g, order) ==> WellOrdered(g, Concat(paths)))
    && (forall j :: curr < j < |paths| ==> |paths[j]| == 1)
    && FusedUpTo(g, paths, curr)
    && (curr < |paths| ==> forall j :: curr < j < next ==> !Fusible(g, Last(paths[curr]), paths[j][0]))
  }

  /** push_back on the current stage's path and erase of the following stage, seen on the list of paths. */
  lemma FuseStages(paths: seq<Path>, curr: nat, next: nat, pushed: seq<Stage>)
    requires curr < next < |paths| && |paths[next]| == 1
    requires pushed == OnePathEach(paths)[curr := [paths[curr] + paths[next]]]
    ensures pushed[..next] + pushed[next + 1..] == OnePathEach(Fuse(paths, curr, next))
  {
    var fused := Fuse(paths, curr, next);
    var erased := pushed[..next] + pushed[next + 1..];
    assert |erased| == |fused|;
    forall i | 0 <= i < |fused| ensures erased[i] == [fused[i]] {
      if i < next {
        assert erased[i] == pushed[i];
      } else {
        assert erased[i] == pushed[i + 1];
      }
    }
  }

  lemma CombiningFused(g: Graph, order: seq<Name>, paths: seq<Path>, curr: nat, next: nat)
    requires Combining(g, order, paths, curr, next) && curr < next < |paths|
    requires Fusible(g, Last(paths[curr]), paths[next][0])
    ensures Combining(g, order, Fuse(paths, curr, next), curr, curr + 1)
  {
    FuseKeepsOrder(g, paths, curr, next);
    FuseKeepsChains(g, paths, curr, next);
    FuseKeepsDone(g, paths, curr, next);
    SameMembers(Concat(paths), Concat(Fuse(paths, curr, next)));
  }

  lemma SameMembers<T>(a: seq<T>, b: seq<T>)
    requires multiset(a) == multiset(b)
    ensures forall x :: x in a <==> x in b
  {
    forall x ensures x in a <==> x in b {
      assert x in a <==> x in multiset(a);
      assert x in b <==> x in multiset(b);
    }
  }

  /** The two blocks that combine_stages compares. */
  lemma CombiningLook(g: Graph, order: seq<Name>, paths: seq<Path>, curr: nat, next: nat)
    requires Combining(g, order, paths, curr, next) && curr < next < |paths|
    ensures OnePathEach(paths)[curr] == [paths[curr]] && paths[curr] != [] && Last(paths[curr]) in g.blocks
    ensures OnePathEach(paths)[next] == [paths[next]] && paths[next] == [paths[next][0]] && paths[next][0] in g.blocks
  {
    InConcat(paths, curr, |paths[curr]| - 1);
    InConcat(paths, next, 0);
  }

  lemma CombiningStart(g: Graph, order: seq<Name>) returns (paths: seq<Path>)
    requires Known(g, order)
    ensures Combining(g, order, paths, 0, 0) && Singles(order) == OnePathEach(paths)
  {
    paths := seq(|order|, i requires 0 <= i < |order| => [order[i]]);
    SinglesOrder(order);
    ConcatOnePathEach(paths);
    assert Singles(order) == OnePathEach(paths);
  }

  /** A stage that cannot be continued is left behind. */
  lemma CombiningAdvance(g: Graph, order: seq<Name>, paths: seq<Path>, curr: nat, next: nat)
    requires Combining(g, order, paths, curr, next) && curr < |paths|
    requires next == |paths| || (Ended(g, Last(paths[curr])) && next == curr + 1)
    ensures Combining(g, order, paths, curr + 1, if next == |paths| then curr + 1 else next + 1)
  {
    var rest := paths[curr + 1..];
    forall p, k | 0 <= p < |rest| && 0 <= k < |rest[p]| ensures !Fusible(g, Last(paths[curr]), rest[p][k]) {
      assert rest[p] == paths[p + curr + 1];
    }
    assert NothingToFuse(g, Last(paths[curr]), paths[curr + 1..]);
  }

  ghost predicate Ended(g: Graph, b: Name) {
    b in g.blocks ==> RightTerminated(g, b)
  }

  lemma InConcat(paths: seq<Path>, p: nat, k: nat)
    requires p < |paths| && k < |paths[p]|
    ensures paths[p][k] in Concat(paths)
  {
    ConcatMembers(paths, paths[p][k]);
  }

  // ---- parallelize ----

  /** The state of parallelize when stage curr + 1 is about to be examined. */
  ghost predicate Parallelizing(g: Graph, paths: seq<Path>, stages: seq<Stage>, curr: nat) {
    && curr < |stages|
    && Concat(stages) == paths
    && (forall s :: 0 <= s < |stages| ==> stages[s] != [] && NonEmptyPaths(stages[s]))
    && (forall s :: curr < s < |stages| ==> |stages[s]| == 1)
    && (forall s :: 0 <= s <= curr ==> EndsMissStarts(g, stages[s]))
    && (forall s :: 0 < s <= curr ==> Feeds(g, stages[s - 1], stages[s][0]))
  }

  /** The stages after the path of stage curr + 1 has been added to stage curr. */
  function Absorb(stages: seq<Stage>, curr: nat): seq<Stage>
    requires curr + 1 < |stages|
  {
    stages[..curr] + [stages[curr] + stages[curr + 1]] + stages[curr + 2..]
  }

  lemma AbsorbConcat(stages: seq<Stage>, curr: nat)
    requires curr + 1 < |stages|
    ensures Concat(Absorb(stages, curr)) == Concat(stages)
  {
    var a, b, c := stages[..curr], [stages[curr] + stages[curr + 1]], stages[curr + 2..];
    assert Absorb(stages, curr) == a + (b + c);
    ConcatAppend(a, b + c);
    ConcatAppend(b, c);
    ConcatOne(stages[curr] + stages[curr + 1]);
    ConcatDrop(stages, 0, curr);
    ConcatHead(stages, curr);
    ConcatHead(stages, curr + 1);
    assert stages[0..] == stages && stages[0..curr] == stages[..curr];
    Associate(Concat(a), stages[curr], stages[curr + 1], Concat(c));
  }

  lemma Associate<T>(a: seq<T>, b: seq<T>, c: seq<T>, d: seq<T>)
    ensures a + (b + (c + d)) == a + ((b + c) + d)
  {
    assert b + (c + d) == (b + c) + d;
  }

  lemma ParallelizingAbsorb(g: Graph, paths: seq<Path>, stages: seq<Stage>, curr: nat)
    requires Parallelizing(g, paths, stages, curr) && curr + 1 < |stages|
    requires forall p :: 0 <= p < |stages[curr]| ==> !Edge(g, Last(stages[curr][p]), stages[curr + 1][0][0])
    ensures Parallelizing(g, paths, Absorb(stages, curr), curr)
  {
    var absorbed := Absorb(stages, curr);
    AbsorbConcat(stages, curr);
    forall s | 0 <= s < |absorbed| && s != curr ensures absorbed[s] == stages[if s < curr then s else s + 1] {
    }
    assert stages[curr + 1] == [stages[curr + 1][0]];
    assert EndsMissStarts(g, stages[curr]);
    assert absorbed[curr][0] == stages[curr][0];
  }

  lemma EndsKnown(g: Graph, stages: seq<Stage>, s: nat, p: nat)
    requires s < |stages| && p < |stages[s]| && stages[s][p] != [] && Known(g, Order(stages))
    ensures Last(stages[s][p]) in g.blocks
  {
    ConcatMembers(stages, stages[s][p]);
    ConcatMembers(Concat(stages), Last(stages[s][p]));
  }

  lemma {:induction false} OnePathEachParallelizing(g: Graph, paths: seq<Path>)
    requires paths != [] && NonEmptyPaths(paths)
    ensures Parallelizing(g, paths, OnePathEach(paths), 0)
  {
    ConcatOnePathEach(paths);
    forall s | 0 <= s < |paths| ensures OnePathEach(paths)[s] != [] && NonEmptyPaths(OnePathEach(paths)[s]) {
      assert OnePathEach(paths)[s] == [paths[s]];
    }
  }

  // ---- correctness of the resulting schedule ----

  lemma OrderSplit(stages: seq<Stage>, k: nat)
    requires k < |stages|
    ensures Order(stages) == Order(stages[..k]) + Concat(stages[k]) + Order(stages[k + 1..])
  {
    ConcatSplit(stages, k);
    ConcatAppend(Concat(stages[..k]) + stages[k], Concat(stages[k + 1..]));
    ConcatAppend(Concat(stages[..k]), stages[k]);
  }

  lemma OrderHead(stages: seq<Stage>)
    requires stages != []
    ensures Order(stages) == Concat(stages[0]) + Order(stages[1..])
  {
    ConcatAppend(stages[0], Concat(stages[1..]));
  }

  lemma DistinctConcat<T>(a: seq<T>, b: seq<T>)
    requires Distinct(a + b)
    ensures Distinct(a) && Distinct(b) && forall x :: x in a ==> x !in b
  {
    forall i, j | 0 <= i < j < |a| ensures a[i] != a[j] {
      assert (a + b)[i] == a[i] && (a + b)[j] == a[j];
    }
    forall i, j | 0 <= i < j < |b| ensures b[i] != b[j] {
      assert (a + b)[|a| + i] == b[i] && (a + b)[|a| + j] == b[j];
    }
    forall i, j | 0 <= i < |a| && 0 <= j < |b| ensures a[i] != b[j] {
      assert (a + b)[i] == a[i] && (a + b)[|a| + j] == b[j];
    }
  }

  /** Two parts of a well-ordered concatenation: disjoint, and no connection leads back. */
  lemma DistinctParts<T>(parts: seq<seq<T>>, p: nat, q: nat)
    requires Distinct(Concat(parts)) && p < q < |parts|
    ensures forall x :: x in parts[p] ==> x !in parts[q]
  {
    var pre, rest := Concat(parts[..p]) + parts[p], Concat(parts[p + 1..]);
    ConcatSplit(parts, p);
    DistinctConcat(pre, rest);
    forall x | x in parts[q] ensures x in rest {
      assert parts[q] == parts[p + 1..][q - p - 1];
      ConcatMembers(parts[p + 1..], x);
    }
  }

  lemma PartsInOrder(g: Graph, parts: seq<seq<Name>>, p: nat, q: nat)
    requires Distinct(Concat(parts)) && Topological(g, Concat(parts))
    requires p < q < |parts|
    ensures NoEdges(g, parts[q], parts[p])
    ensures forall x :: x in parts[p] ==> x !in parts[q]
  {
    var pre, rest := Concat(parts[..p]) + parts[p], Concat(parts[p + 1..]);
    DistinctParts(parts, p, q);
    ConcatSplit(parts, p);
    TopologicalConcat(g, pre, rest);
    forall x | x in parts[q] ensures x in rest {
      assert parts[q] == parts[p + 1..][q - p - 1];
      ConcatMembers(parts[p + 1..], x);
    }
  }

  lemma PartInOrder(g: Graph, parts: seq<seq<Name>>, p: nat)
    requires Distinct(Concat(parts)) && Topological(g, Concat(parts)) && p < |parts|
    ensures Distinct(parts[p]) && Topological(g, parts[p])
  {
    var pre, post := Concat(parts[..p]), Concat(parts[p + 1..]);
    ConcatSplit(parts, p);
    TopologicalConcat(g, pre + parts[p], post);
    TopologicalConcat(g, pre, parts[p]);
    DistinctConcat(pre + parts[p], post);
    DistinctConcat(pre, parts[p]);
  }

  /** A connection between two disjoint chains leaves the end of one and enters the start of the other. */
  lemma CrossEdgeJoinsEndToStart(g: Graph, p: Path, q: Path, u: Name, v: Name)
    requires Valid(g) && PortsUsedOnce(g) && Chain(g, p) && Chain(g, q)
    requires forall x :: x in p ==> x !in q
    requires u in p && v in q && Edge(g, u, v)
    ensures u == Last(p) && v == q[0]
  {
    var i :| 0 <= i < |p| && p[i] == u;
    if i < |p| - 1 {
      assert p[i + 1] !in q;
      assert Fusible(g, p[i], p[i + 1]);
      OneOutPortOneSuccessor(g, u, v, p[i + 1]);
      assert false;
    }
    var j :| 0 <= j < |q| && q[j] == v;
    if j > 0 {
      assert q[j - 1] !in p;
      assert Fusible(g, q[j - 1], q[j]);
      OneInPortOnePredecessor(g, u, q[j - 1], v);
      assert false;
    }
  }

  lemma StageIndependent(g: Graph, stage: Stage)
    requires Valid(g) && PortsUsedOnce(g) && Chains(g, stage) && EndsMissStarts(g, stage)
    requires Distinct(Concat(stage)) && Topological(g, Concat(stage))
    ensures PathsIndependent(g, stage)
  {
    forall p, q | 0 <= p < q < |stage| ensures Independent(g, stage[p], stage[q]) {
      PartsInOrder(g, stage, p, q);
      forall u, v | u in stage[p] && v in stage[q] ensures !Edge(g, u, v) {
        if Edge(g, u, v) {
          CrossEdgeJoinsEndToStart(g, stage[p], stage[q], u, v);
          assert false;
        }
      }
    }
  }

  /** parallelize looks only at path ends and starts; for chains this is enough. */
  lemma EndTestsGiveSafety(g: Graph, stages: seq<Stage>)
    requires Chains(g, Concat(stages)) && WellOrdered(g, Order(stages))
    requires forall s :: 0 <= s < |stages| ==> EndsMissStarts(g, stages[s])
    ensures ScheduleSafe(g, stages)
  {
    forall s | 0 <= s < |stages|
      ensures PathsIndependent(g, stages[s])
      ensures forall p :: 0 <= p < |stages[s]| ==> Topological(g, stages[s][p])
    {
      StageWellOrdered(g, stages, s);
      StageIndependent(g, stages[s]);
      forall p | 0 <= p < |stages[s]| ensures Topological(g, stages[s][p]) {
        PartInOrder(g, stages[s], p);
      }
    }
    forall s, t | 0 <= s < t < |stages| ensures NoEdges(g, Concat(stages[t]), Concat(stages[s])) {
      LaterStage(g, stages, s, t);
    }
  }

  lemma StageWellOrdered(g: Graph, stages: seq<Stage>, s: nat)
    requires s < |stages| && Chains(g, Concat(stages)) && WellOrdered(g, Order(stages))
    ensures Distinct(Concat(stages[s])) && Topological(g, Concat(stages[s])) && Chains(g, stages[s])
  {
    var pre, post := Order(stages[..s]), Order(stages[s + 1..]);
    OrderSplit(stages, s);
    TopologicalConcat(g, pre + Concat(stages[s]), post);
    TopologicalConcat(g, pre, Concat(stages[s]));
    DistinctConcat(pre + Concat(stages[s]), post);
    DistinctConcat(pre, Concat(stages[s]));
    StageChains(g, stages, s);
  }

  lemma StageChains(g: Graph, stages: seq<Stage>, s: nat)
    requires s < |stages| && Chains(g, Concat(stages))
    ensures Chains(g, stages[s])
  {
    forall p | 0 <= p < |stages[s]| ensures Chain(g, stages[s][p]) {
      var path := stages[s][p];
      assert path in stages[s];
      ConcatMembers(stages, path);
      var q :| 0 <= q < |Concat(stages)| && Concat(stages)[q] == path;
      assert Chain(g, Concat(stages)[q]);
    }
  }

  lemma LaterStage(g: Graph, stages: seq<Stage>, s: nat, t: nat)
    requires s < t < |stages| && WellOrdered(g, Order(stages))
    ensures NoEdges(g, Concat(stages[t]), Concat(stages[s]))
  {
    var pre, rest := Order(stages[..s]) + Concat(stages[s]), Order(stages[s + 1..]);
    OrderSplit(stages, s);
    TopologicalConcat(g, pre, rest);
    var later := stages[s + 1..];
    OrderSplit(later, t - s - 1);
    assert later[t - s - 1] == stages[t];
  }

  /** Block b follows block a in a path exactly when a connection joins them that uses the only ports on its way. */
  ghost predicate FusedExactly(g: Graph, paths: seq<Path>) {
    forall p, a, q, b :: 0 <= p < |paths| && 0 <= a < |paths[p]| && 0 <= q < |paths| && 0 <= b < |paths[q]|
      ==> (JoinedAlone(g, paths[p][a], paths[q][b]) <==> p == q && b == a + 1)
  }

  lemma PathsFollowLoneConnections(g: Graph, paths: seq<Path>)
    requires Chains(g, paths) && FusedUpTo(g, paths, |paths|) && WellOrdered(g, Concat(paths))
    ensures FusedExactly(g, paths)
  {
    forall p, a, q, b | 0 <= p < |paths| && 0 <= a < |paths[p]| && 0 <= q < |paths| && 0 <= b < |paths[q]|
      ensures JoinedAlone(g, paths[p][a], paths[q][b]) <==> p == q && b == a + 1
    {
      FusibleIsJoinedAlone(g, paths[p][a], paths[q][b]);
      NeighboursAreFusible(g, paths, p, a, q, b);
    }
  }

  lemma NeighboursAreFusible(g: Graph, paths: seq<Path>, p: nat, a: nat, q: nat, b: nat)
    requires Chains(g, paths) && FusedUpTo(g, paths, |paths|) && WellOrdered(g, Concat(paths))
    requires p < |paths| && a < |paths[p]| && q < |paths| && b < |paths[q]|
    ensures Fusible(g, paths[p][a], paths[q][b]) <==> p == q && b == a + 1
  {
    var u, v := paths[p][a], paths[q][b];
    if Fusible(g, u, v) {
      if a + 1 < |paths[p]| {
        assert Fusible(g, paths[p][a], paths[p][a + 1]);
        OneOutPortOneSuccessor(g, u, v, paths[p][a + 1]);
        SamePlace(g, paths, p, a + 1, q, b);
      } else {
        EndIsFinal(g, paths, p, q, b);
        assert false;
      }
    }
  }

  lemma EndIsFinal(g: Graph, paths: seq<Path>, p: nat, q: nat, b: nat)
    requires Chains(g, paths) && FusedUpTo(g, paths, |paths|) && WellOrdered(g, Concat(paths))
    requires p < |paths| && q < |paths| && b < |paths[q]|
    ensures !Fusible(g, Last(paths[p]), paths[q][b])
  {
    if p < q {
      assert NothingToFuse(g, Last(paths[p]), paths[p + 1..]);
      assert paths[p + 1..][q - p - 1] == paths[q];
    } else if q < p {
      PartsInOrder(g, paths, q, p);
    } else {
      PartInOrder(g, paths, p);
    }
  }

  lemma SamePlace(g: Graph, paths: seq<Path>, p: nat, a: nat, q: nat, b: nat)
    requires WellOrdered(g, Concat(paths))
    requires p < |paths| && a < |paths[p]| && q < |paths| && b < |paths[q]| && paths[p][a] == paths[q][b]
    ensures p == q && a == b
  {
    assert paths[p][a] in paths[p] && paths[q][b] in paths[q];
    if p < q {
      PartsInOrder(g, paths, p, q);
    } else if q < p {
      PartsInOrder(g, paths, q, p);
    } else {
      PartInOrder(g, paths, p);
    }
  }

  class ExecutionMatrix {
    const graph: Graph
    var stages: seq<Stage>

    constructor (g: Graph)
      ensures graph == g && stages == []
    {
      graph := g;
      stages := [];
    }

    method BlockIsPlaced(name: Name) returns (placed: bool)
      ensures placed <==> exists s :: 0 <= s < |stages| && StageHolds(stages[s], name)
    {
      var s := 0;
      while s < |stages|
        invariant s <= |stages|
        invariant forall t :: 0 <= t < s ==> !StageHolds(stages[t], name)
      {
        if StageHolds(stages[s], name) {
          return true;
        }
        s := s + 1;
      }
      return false;
    }

    /** A Source is put in front of everything, any other block behind everything. */
    method AddBlock(b: Name)
      requires b in graph.blocks
      modifies this`stages
      ensures stages == if graph.blocks[b].source then [[[b]]] + old(stages) else old(stages) + [[[b]]]
    {
      if graph.blocks[b].source {
        stages := [[[b]]] + stages;
      } else {
        stages := stages + [[[b]]];
      }
    }

    /** The block gets a new stage right after the first stage that holds `insertAfter`. */
    method PlaceBlock(b: Name, insertAfter: Name)
      modifies this`stages
      ensures (forall s :: 0 <= s < |old(stages)| ==> !StageHolds(old(stages)[s], insertAfter)) ==> stages == old(stages)
      ensures forall s :: 0 <= s < |old(stages)| && StageHolds(old(stages)[s], insertAfter)
                && (forall t :: 0 <= t < s ==> !StageHolds(old(stages)[t], insertAfter))
                ==> stages == old(stages)[..s + 1] + [[[b]]] + old(stages)[s + 1..]
    {
      var s := 0;
      while s < |stages|
        invariant s <= |stages| && stages == old(stages)
        invariant forall t :: 0 <= t < s ==> !StageHolds(stages[t], insertAfter)
      {
        if StageHolds(stages[s], insertAfter) {
          stages := stages[..s + 1] + [[[b]]] + stages[s + 1..];
          return;
        }
        s := s + 1;
      }
    }

    /** push_back on the current stage's path, and erase of the following stage. */
    method PushAndErase(curr: nat, next: nat, blockNext: Name, ghost paths: seq<Path>)
      requires stages == OnePathEach(paths) && curr < next < |paths| && paths[next] == [blockNext]
      modifies this`stages
      ensures stages == OnePathEach(Fuse(paths, curr, next))
    {
      assert stages[curr] == [paths[curr]];
      stages := stages[curr := stages[curr][0 := stages[curr][0] + [blockNext]]];
      assert stages[curr] == [paths[curr] + paths[next]];
      FuseStages(paths, curr, next, stages);
      stages := stages[..next] + stages[next + 1..];
    }

    /** One look of combine_stages at the stage `next`: give up on `curr`, skip `next`, or fuse the two. */
    method Look(curr: nat, next: nat, ghost order: seq<Name>, ghost paths: seq<Path>)
      returns (curr': nat, next': nat, ghost paths': seq<Path>)
      requires stages == OnePathEach(paths) && curr < next < |paths|
      requires Combining(graph, order, paths, curr, next)
      requires next > curr + 1 ==> !Ended(graph, Last(paths[curr]))
      modifies this`stages
      ensures stages == OnePathEach(paths') && curr <= curr' <= next' < |paths'|
      ensures |paths'| < |paths| || (|paths'| == |paths| && next' == next)
      ensures Combining(graph, order, paths', curr', next' + 1)
      ensures next' > curr' ==> !Ended(graph, Last(paths'[curr']))
    {
      curr', next', paths' := curr, next, paths;
      CombiningLook(graph, order, paths, curr, next);
      var blockCurr := Last(stages[curr][|stages[curr]| - 1]);
      if RightTerminated(graph, blockCurr) {
        CombiningAdvance(graph, order, paths, curr, next);
        curr' := curr + 1;
      } else if !LeftTerminated(graph, stages[next][0][0]) {
        var blockNext := stages[next][0][0];
        if Edge(graph, blockCurr, blockNext) {
          CombiningFused(graph, order, paths, curr, next);
          PushAndErase(curr, next, blockNext, paths);
          paths' := Fuse(paths, curr, next);
          next' := curr;
        }
      }
    }

    /** Fuses every block that can only run right after another one onto that block's path. */
    method CombineStages() returns (ghost paths: seq<Path>)
      requires stages == Singles(Order(stages)) && stages != [] && Known(graph, Order(stages))
      modifies this`stages
      ensures stages == OnePathEach(paths) && |paths| > 0
      ensures Chains(graph, paths) && FusedUpTo(graph, paths, |paths|)
      ensures multiset(Order(stages)) == multiset(old(Order(stages)))
      ensures WellOrdered(graph, old(Order(stages))) ==> WellOrdered(graph, Order(stages)) && FusedExactly(graph, paths)
    {
      ghost var order := Order(stages);
      paths := CombiningStart(graph, order);
      var curr, next := 0, 0;
      while true
        invariant stages == OnePathEach(paths) && curr == next < |paths|
        invariant Combining(graph, order, paths, curr, next)
        decreases |stages| - curr
      {
        ghost var start, from := |stages|, curr;
        next := next + 1;
        while next != |stages|
          invariant stages == OnePathEach(paths) && |stages| <= start && from <= curr < next <= |paths|
          invariant Combining(graph, order, paths, curr, next)
          invariant next > curr + 1 ==> !Ended(graph, Last(paths[curr]))
          decreases |stages|, |stages| - next
        {
          curr, next, paths := Look(curr, next, order, paths);
          next := next + 1;
        }
        CombiningAdvance(graph, order, paths, curr, next);
        curr := curr + 1;
        next := curr;
        if curr == |stages| {
          break;
        }
      }
      ConcatOnePathEach(paths);
      if WellOrdered(graph, order) {
        PathsFollowLoneConnections(graph, paths);
      }
    }

    /** add_path of the next stage's path to the current stage, and erase of the next stage. */
    method AddPathAndErase(curr: nat)
      requires curr + 1 < |stages| && |stages[curr + 1]| == 1
      modifies this`stages
      ensures stages == Absorb(old(stages), curr)
    {
      var next := curr + 1;
      assert stages[next] == [stages[next][0]];
      stages := stages[curr := stages[curr] + [stages[next][0]]];
      stages := stages[..next] + stages[next + 1..];
    }

    /** Merges each stage into the one before it, unless a path there feeds it. */
    method Parallelize(ghost paths: seq<Path>)
      requires stages == OnePathEach(paths) && paths != [] && NonEmptyPaths(paths)
      requires Valid(graph) && Known(graph, Concat(paths))
      modifies this`stages
      ensures Concat(stages) == paths
      ensures forall s :: 0 <= s < |stages| ==> stages[s] != [] && EndsMissStarts(graph, stages[s])
      ensures StagesSeparated(graph, stages)
    {
      OnePathEachParallelizing(graph, paths);
      var curr, next := 0, 1;
      while next != |stages|
        invariant next == curr + 1 <= |stages|
        invariant Parallelizing(graph, paths, stages, curr)
        decreases |stages|, |stages| - next
      {
        var pathIt, conflict := 0, false;
        ghost var now := stages;
        while !conflict && pathIt != |stages[curr]|
          invariant stages == now && pathIt <= |stages[curr]|
          invariant forall p :: 0 <= p < pathIt ==> !Edge(graph, Last(stages[curr][p]), stages[next][0][0])
          invariant conflict ==> Feeds(graph, stages[curr], stages[next][0])
          decreases !conflict, |stages[curr]| - pathIt
        {
          var blockCurr, blockNext := Last(stages[curr][pathIt]), stages[next][0][0];
          EndsKnown(graph, stages, curr, pathIt);
          if !graph.blocks[blockCurr].source {
            OnlySourcesConnect(graph, blockCurr);
            pathIt := pathIt + 1;
          } else if Edge(graph, blockCurr, blockNext) {
            conflict := true;
          } else {
            pathIt := pathIt + 1;
          }
        }
        if conflict {
          curr := curr + 1;
        } else {
          ParallelizingAbsorb(graph, paths, stages, curr);
          AddPathAndErase(curr);
          next := curr;
        }
        next := next + 1;
      }
    }
  }
}
