/** What running blocks does to their states and to the signal buffers. */
module BlockSemantics {
  import opened BlockGraph
  import opened Sequences

  /** A block's own state, or the signal buffer of one connection. */
  datatype Loc = Own(block: Name) | Buffer(wire: Wire)

  type Store<V> = map<Loc, V>

  /** One atomic memory step of a block's process(). */
  datatype Action = Action(block: Name, op: nat)

  /** Arbitrary blocks: how many steps process() takes, and what each step does to the locations the block sees. */
  datatype Machine<!V> = Machine(steps: Name -> nat, step: (Action, Store<V>) -> Store<V>)

  /** A block sees its own state and the buffers of its connections. */
  predicate Visible(b: Name, l: Loc) {
    match l
    case Own(owner) => owner == b
    case Buffer(w) => w.src == b || w.dst == b
  }

  /** It changes its own state and the buffers of its out ports; input signals are const. */
  predicate Writable(b: Name, l: Loc) {
    match l
    case Own(owner) => owner == b
    case Buffer(w) => w.src == b
  }

  function View<V>(b: Name, s: Store<V>): Store<V> {
    map l | l in s && Visible(b, l) :: s[l]
  }

  function Perform<V>(m: Machine<V>, a: Action, s: Store<V>): (r: Store<V>)
    ensures r.Keys == s.Keys
    ensures forall l :: l in s && !Writable(a.block, l) ==> r[l] == s[l]
    ensures Own(a.block) in s && Own(a.block) in m.step(a, View(a.block, s)) ==> r[Own(a.block)] == m.step(a, View(a.block, s))[Own(a.block)]
    ensures forall w :: Buffer(w) in s && w.src == a.block && Buffer(w) in m.step(a, View(a.block, s))
              ==> r[Buffer(w)] == m.step(a, View(a.block, s))[Buffer(w)]
  {
    var out := m.step(a, View(a.block, s));
    map l | l in s :: if Writable(a.block, l) && l in out then out[l] else s[l]
  }

  function Run<V>(m: Machine<V>, t: seq<Action>, s: Store<V>): (r: Store<V>)
    ensures r.Keys == s.Keys
  {
    if t == [] then s else Run(m, t[1..], Perform(m, t[0], s))
  }

  /** The buffers of the store belong to connections of the graph. */
  ghost predicate Fits<V>(g: Graph, s: Store<V>) {
    forall l :: l in s && l.Buffer? ==> l.wire in g.wires
  }

  /** Two different blocks that no connection joins. */
  ghost predicate Apart(g: Graph, b: Name, c: Name) {
    b != c && !Edge(g, b, c) && !Edge(g, c, b)
  }

  ghost predicate ActionsApart(g: Graph, t: seq<Action>, u: seq<Action>) {
    forall a, b :: a in t && b in u ==> Apart(g, a.block, b.block)
  }

  lemma {:induction false} RunAppend<V>(m: Machine<V>, t: seq<Action>, u: seq<Action>, s: Store<V>)
    ensures Run(m, t + u, s) == Run(m, u, Run(m, t, s))
  {
    if t == [] {
      assert t + u == u;
    } else {
      RunAppend(m, t[1..], u, Perform(m, t[0], s));
      assert (t + u)[0] == t[0] && (t + u)[1..] == t[1..] + u;
    }
  }

  lemma RunOne<V>(m: Machine<V>, a: Action, s: Store<V>)
    ensures Run(m, [a], s) == Perform(m, a, s)
  {
    assert [a][1..] == [];
  }

  lemma RunLast<V>(m: Machine<V>, t: seq<Action>, s: Store<V>)
    requires t != []
    ensures Run(m, t, s) == Run(m, [t[|t| - 1]], Run(m, t[..|t| - 1], s))
  {
    assert t == t[..|t| - 1] + [t[|t| - 1]];
    RunAppend(m, t[..|t| - 1], [t[|t| - 1]], s);
  }

  /** What an unconnected block does is invisible. */
  lemma ViewUnchanged<V>(g: Graph, m: Machine<V>, a: Action, b: Name, s: Store<V>)
    requires Fits(g, s) && Apart(g, a.block, b)
    ensures View(b, Perform(m, a, s)) == View(b, s)
  {
    forall l | l in s && Visible(b, l) ensures !Writable(a.block, l) {
      if l.Buffer? {
        assert l.wire in g.wires;
        assert l.wire.dst in Connections(g, l.wire.src);
      }
    }
  }

  /** Steps of unconnected blocks commute. */
  lemma ActionsCommute<V>(g: Graph, m: Machine<V>, a: Action, b: Action, s: Store<V>)
    requires Fits(g, s) && Apart(g, a.block, b.block)
    ensures Perform(m, b, Perform(m, a, s)) == Perform(m, a, Perform(m, b, s))
  {
    ViewUnchanged(g, m, a, b.block, s);
    ViewUnchanged(g, m, b, a.block, s);
    var ab, ba := Perform(m, b, Perform(m, a, s)), Perform(m, a, Perform(m, b, s));
    forall l | l in s ensures ab[l] == ba[l] {
    }
  }

  lemma FitsKept<V>(g: Graph, m: Machine<V>, t: seq<Action>, s: Store<V>)
    requires Fits(g, s)
    ensures Fits(g, Run(m, t, s))
  {
  }

  lemma {:induction false} ActionPastList<V>(g: Graph, m: Machine<V>, a: Action, t: seq<Action>, s: Store<V>)
    requires Fits(g, s) && ActionsApart(g, [a], t)
    ensures Run(m, [a] + t, s) == Run(m, t + [a], s)
  {
    if t == [] {
      assert [a] + t == t + [a];
    } else {
      var rest := t[1..];
      ActionsCommute(g, m, a, t[0], s);
      ActionPastList(g, m, a, rest, Perform(m, t[0], s));
      assert ([a] + t)[1..] == t && ([a] + rest)[1..] == rest;
      assert (t + [a])[1..] == rest + [a];
    }
  }

  /** Whole runs of unconnected blocks commute. */
  lemma {:induction false} ListsCommute<V>(g: Graph, m: Machine<V>, t: seq<Action>, u: seq<Action>, s: Store<V>)
    requires Fits(g, s) && ActionsApart(g, t, u)
    ensures Run(m, t + u, s) == Run(m, u + t, s)
  {
    if t == [] {
      assert t + u == u && u + t == u;
    } else {
      var a, rest := t[0], t[1..];
      var s1 := Perform(m, a, s);
      ListsCommute(g, m, rest, u, s1);
      assert (t + u)[1..] == rest + u;
      RunAppend(m, u, rest, s1);
      assert ([a] + u)[1..] == u;
      ActionPastList(g, m, a, u, s);
      RunAppend(m, u, [a], s);
      RunOne(m, a, Run(m, u, s));
      assert u + t == u + [a] + rest;
      RunAppend(m, u + [a], rest, s);
    }
  }

  // ---- whole calls of process() ----

  /** The steps of one call of process(). */
  function Process<V>(m: Machine<V>, b: Name): seq<Action> {
    seq(m.steps(b), k requires 0 <= k < m.steps(b) => Action(b, k))
  }

  /** Calling process() for each block of a list in turn. */
  function ProcessAll<V>(m: Machine<V>, order: seq<Name>): seq<Action> {
    if order == [] then [] else Process(m, order[0]) + ProcessAll(m, order[1..])
  }

  lemma {:induction false} ProcessAllMembers<V>(m: Machine<V>, order: seq<Name>, a: Action)
    requires a in ProcessAll(m, order)
    ensures a.block in order
  {
    if a !in Process(m, order[0]) {
      ProcessAllMembers(m, order[1..], a);
    }
  }

  lemma {:induction false} ProcessAllAppend<V>(m: Machine<V>, a: seq<Name>, b: seq<Name>)
    ensures ProcessAll(m, a + b) == ProcessAll(m, a) + ProcessAll(m, b)
  {
    if a == [] {
      assert a + b == b;
    } else {
      ProcessAllAppend(m, a[1..], b);
      assert (a + b)[0] == a[0] && (a + b)[1..] == a[1..] + b;
      Assoc(Process(m, a[0]), ProcessAll(m, a[1..]), ProcessAll(m, b));
    }
  }

  lemma ApartLists<V>(g: Graph, m: Machine<V>, p: seq<Name>, q: seq<Name>)
    requires forall b, c :: b in p && c in q ==> Apart(g, b, c)
    ensures ActionsApart(g, ProcessAll(m, p), ProcessAll(m, q))
  {
    forall a, b | a in ProcessAll(m, p) && b in ProcessAll(m, q) ensures Apart(g, a.block, b.block) {
      ProcessAllMembers(m, p, a);
      ProcessAllMembers(m, q, b);
    }
  }

  /** Any two topological orders of the same blocks compute the same store. */
  lemma {:induction false} TopologicalOrdersAgree<V>(g: Graph, m: Machine<V>, p: seq<Name>, q: seq<Name>, s: Store<V>)
    requires Fits(g, s)
    requires Topological(g, p) && Topological(g, q) && Distinct(p) && Distinct(q)
    requires forall b :: b in p <==> b in q
    ensures Run(m, ProcessAll(m, p), s) == Run(m, ProcessAll(m, q), s)
    decreases |p|
  {
    if p == [] {
      if q != [] {
        FirstIsMember(q);
        assert false;
      }
    } else {
      var b, rest := p[0], p[1..];
      var k := IndexOf(q, b);
      var pre, post := q[..k], q[k + 1..];
      assert q == pre + ([b] + post);
      FirstCanGoFirst(g, p, q, k);
      ApartLists(g, m, pre, [b]);
      Remainders(g, p, q, k);
      var bs := ProcessAll(m, [b]);
      ProcessAllAppend(m, [b], rest);
      ProcessAllAppend(m, pre, [b] + post);
      ProcessAllAppend(m, [b], post);
      ProcessAllAppend(m, pre, post);
      assert p == [b] + rest;
      ListsCommute(g, m, ProcessAll(m, pre), bs, s);
      MoveToFront(m, ProcessAll(m, pre), bs, ProcessAll(m, post), s);
      RunAppend(m, bs, ProcessAll(m, rest), s);
      TopologicalOrdersAgree(g, m, rest, pre + post, Run(m, bs, s));
    }
  }

  lemma FirstIsMember(q: seq<Name>)
    requires q != []
    ensures exists b :: b in q
  {
    assert q[0] in q;
  }

  lemma MoveToFront<V>(m: Machine<V>, pre: seq<Action>, bs: seq<Action>, post: seq<Action>, s: Store<V>)
    requires Run(m, pre + bs, s) == Run(m, bs + pre, s)
    ensures Run(m, pre + (bs + post), s) == Run(m, pre + post, Run(m, bs, s))
  {
    Assoc(pre, bs, post);
    RunAppend(m, pre + bs, post, s);
    RunAppend(m, bs, pre, s);
    RunAppend(m, pre, post, Run(m, bs, s));
  }

  lemma IndexOf(q: seq<Name>, b: Name) returns (k: nat)
    requires b in q
    ensures k < |q| && q[k] == b
  {
    k :| 0 <= k < |q| && q[k] == b;
  }

  /** The first block of one topological order is unconnected to all that precede it in another. */
  lemma FirstCanGoFirst(g: Graph, p: seq<Name>, q: seq<Name>, k: nat)
    requires Topological(g, p) && Topological(g, q) && Distinct(q)
    requires forall b :: b in p <==> b in q
    requires p != [] && k < |q| && q[k] == p[0]
    ensures forall b, c :: b in q[..k] && c in [q[k]] ==> Apart(g, b, c)
  {
    forall b | b in q[..k] ensures Apart(g, b, q[k]) {
      var i :| 0 <= i < k && q[i] == b;
      assert !Edge(g, q[k], q[i]);
      assert b in p;
      var j :| 0 <= j < |p| && p[j] == b;
      assert !Edge(g, p[j], p[0]);
    }
  }

  lemma Remainders(g: Graph, p: seq<Name>, q: seq<Name>, k: nat)
    requires Topological(g, p) && Topological(g, q) && Distinct(p) && Distinct(q)
    requires forall b :: b in p <==> b in q
    requires p != [] && k < |q| && q[k] == p[0]
    ensures var rest, others := p[1..], q[..k] + q[k + 1..];
            Topological(g, rest) && Topological(g, others) && Distinct(rest) && Distinct(others)
            && forall b :: b in rest <==> b in others
  {
    var rest, others := p[1..], q[..k] + q[k + 1..];
    assert forall i :: 0 <= i < |rest| ==> rest[i] == p[i + 1];
    assert forall i :: 0 <= i < |others| ==> others[i] == q[if i < k then i else i + 1];
    forall b ensures b in rest <==> b in others {
      if b in rest {
        var i :| 0 <= i < |rest| && rest[i] == b;
        assert p[i + 1] == b && b in q;
        var j :| 0 <= j < |q| && q[j] == b;
        assert j != k;
        assert others[if j < k then j else j - 1] == b;
      }
      if b in others {
        var i :| 0 <= i < |others| && others[i] == b;
        assert q[if i < k then i else i + 1] == b && b in p;
        var j :| 0 <= j < |p| && p[j] == b;
        assert j != 0;
        assert rest[j - 1] == b;
      }
    }
  }

  // ---- interleaving ----

  /** t is a shuffle of the first done[i] actions of each list. */
  ghost predicate Interleaves(t: seq<Action>, lists: seq<seq<Action>>, done: seq<nat>)
    requires |done| == |lists|
    decreases |t|
  {
    if t == [] then
      forall i :: 0 <= i < |lists| ==> done[i] == 0
    else
      exists i :: 0 <= i < |lists| && Takes(t[|t| - 1], lists[i], done[i])
               && Interleaves(t[..|t| - 1], lists, done[i := done[i] - 1])
  }

  predicate Takes(a: Action, list: seq<Action>, done: nat) {
    0 < done <= |list| && list[done - 1] == a
  }

  function Prefixes(lists: seq<seq<Action>>, done: seq<nat>): seq<seq<Action>>
    requires |done| == |lists| && forall i :: 0 <= i < |lists| ==> done[i] <= |lists[i]|
  {
    seq(|lists|, i requires 0 <= i < |lists| => lists[i][..done[i]])
  }

  /** Actions of different lists belong to unconnected blocks. */
  ghost predicate ListsApart(g: Graph, lists: seq<seq<Action>>) {
    forall i, j :: 0 <= i < j < |lists| ==> ActionsApart(g, lists[i], lists[j])
  }

  /** The list that the last action of a shuffle was taken from. */
  lemma LastTaken(t: seq<Action>, lists: seq<seq<Action>>, done: seq<nat>) returns (i: nat, before: seq<nat>)
    requires |done| == |lists| && Interleaves(t, lists, done) && t != []
    ensures i < |lists| && |before| == |lists| && Interleaves(t[..|t| - 1], lists, before)
    ensures done == before[i := before[i] + 1] && before[i] < |lists[i]| && lists[i][before[i]] == t[|t| - 1]
  {
    i :| 0 <= i < |lists| && Takes(t[|t| - 1], lists[i], done[i]) && Interleaves(t[..|t| - 1], lists, done[i := done[i] - 1]);
    before := done[i := done[i] - 1];
  }

  lemma {:induction false} InterleavesWithin(t: seq<Action>, lists: seq<seq<Action>>, done: seq<nat>)
    requires |done| == |lists| && Interleaves(t, lists, done)
    ensures forall i :: 0 <= i < |lists| ==> done[i] <= |lists[i]|
    decreases |t|
  {
    if t != [] {
      var i, before := LastTaken(t, lists, done);
      InterleavesWithin(t[..|t| - 1], lists, before);
      forall k | 0 <= k < |lists| ensures done[k] <= |lists[k]| {
        assert k != i ==> done[k] == before[k];
      }
    }
  }

  /** Any shuffle of lists of unconnected blocks does what running the lists one after the other does. */
  lemma {:induction false} InterleavingIsSequential<V>(g: Graph, m: Machine<V>, t: seq<Action>, lists: seq<seq<Action>>, done: seq<nat>, s: Store<V>)
    requires Fits(g, s) && ListsApart(g, lists) && |done| == |lists| && Interleaves(t, lists, done)
    requires forall i :: 0 <= i < |lists| ==> done[i] <= |lists[i]|
    ensures Run(m, t, s) == Run(m, Concat(Prefixes(lists, done)), s)
    decreases |t|
  {
    if t == [] {
      AllEmpty(Prefixes(lists, done));
    } else {
      var front, a := t[..|t| - 1], t[|t| - 1];
      var i, before := LastTaken(t, lists, done);
      InterleavesWithin(front, lists, before);
      InterleavingIsSequential(g, m, front, lists, before, s);
      RunLast(m, t, s);
      AppendToPrefix(g, m, lists, before, done, i, a, s);
    }
  }

  /** A shuffle of complete lists does what running the lists one after the other does. */
  lemma FullyInterleaved<V>(g: Graph, m: Machine<V>, t: seq<Action>, lists: seq<seq<Action>>, done: seq<nat>, s: Store<V>)
    requires Fits(g, s) && ListsApart(g, lists) && |done| == |lists| && Interleaves(t, lists, done)
    requires forall i :: 0 <= i < |lists| ==> done[i] == |lists[i]|
    ensures Run(m, t, s) == Run(m, Concat(lists), s)
  {
    InterleavingIsSequential(g, m, t, lists, done, s);
    assert forall i :: 0 <= i < |lists| ==> Prefixes(lists, done)[i] == lists[i][..|lists[i]|] == lists[i];
    assert Prefixes(lists, done) == lists;
  }

  /** Appending the next action of list i to a shuffle. */
  lemma InterleavesMore(t: seq<Action>, lists: seq<seq<Action>>, done: seq<nat>, i: nat)
    requires |done| == |lists| && Interleaves(t, lists, done) && i < |lists| && done[i] < |lists[i]|
    ensures Interleaves(t + [lists[i][done[i]]], lists, done[i := done[i] + 1])
  {
    var a := lists[i][done[i]];
    var more := done[i := done[i] + 1];
    assert more[i := more[i] - 1] == done;
    assert (t + [a])[..|t|] == t;
    assert Takes(a, lists[i], more[i]);
  }

  lemma {:induction false} AllEmpty<T>(ss: seq<seq<T>>)
    requires forall i :: 0 <= i < |ss| ==> ss[i] == []
    ensures Concat(ss) == []
  {
    if ss != [] {
      AllEmpty(ss[1..]);
    }
  }

  /** Running one more action of list i at the end is the same as running it with its own list. */
  lemma AppendToPrefix<V>(g: Graph, m: Machine<V>, lists: seq<seq<Action>>, before: seq<nat>, done: seq<nat>, i: nat, a: Action, s: Store<V>)
    requires Fits(g, s) && ListsApart(g, lists) && |before| == |done| == |lists| && i < |lists|
    requires forall k :: 0 <= k < |lists| ==> before[k] <= |lists[k]| && done[k] <= |lists[k]|
    requires done == before[i := before[i] + 1] && lists[i][before[i]] == a
    ensures Run(m, Concat(Prefixes(lists, before)) + [a], s) == Run(m, Concat(Prefixes(lists, done)), s)
    ensures Run(m, [a], Run(m, Concat(Prefixes(lists, before)), s)) == Run(m, Concat(Prefixes(lists, done)), s)
  {
    var old', now := Prefixes(lists, before), Prefixes(lists, done);
    var pre, post := Concat(old'[..i]), Concat(old'[i + 1..]);
    PrefixesSplit(lists, before, done, i, a);
    var head := pre + old'[i];
    FitsKept(g, m, head, s);
    ApartFromLater(g, lists, before, i, a);
    ActionPastList(g, m, a, post, Run(m, head, s));
    Rearrange(m, pre, old'[i], a, post, s);
    RunAppend(m, Concat(old'), [a], s);
  }

  lemma PrefixesSplit(lists: seq<seq<Action>>, before: seq<nat>, done: seq<nat>, i: nat, a: Action)
    requires |before| == |done| == |lists| && i < |lists|
    requires forall k :: 0 <= k < |lists| ==> before[k] <= |lists[k]| && done[k] <= |lists[k]|
    requires done == before[i := before[i] + 1] && lists[i][before[i]] == a
    ensures var old', now := Prefixes(lists, before), Prefixes(lists, done);
            var pre, post := Concat(old'[..i]), Concat(old'[i + 1..]);
            Concat(old') == pre + old'[i] + post && Concat(now) == pre + (old'[i] + [a]) + post
  {
    var old', now := Prefixes(lists, before), Prefixes(lists, done);
    ConcatSplit(old', i);
    ConcatSplit(now, i);
    assert old'[..i] == now[..i] && old'[i + 1..] == now[i + 1..];
    assert now[i] == old'[i] + [a];
  }

  /** An action of list i stands apart from what later lists have done. */
  lemma ApartFromLater(g: Graph, lists: seq<seq<Action>>, before: seq<nat>, i: nat, a: Action)
    requires ListsApart(g, lists) && |before| == |lists| && i < |lists| && a in lists[i]
    requires forall k :: 0 <= k < |lists| ==> before[k] <= |lists[k]|
    ensures ActionsApart(g, [a], Concat(Prefixes(lists, before)[i + 1..]))
  {
    var later := Prefixes(lists, before)[i + 1..];
    forall b: Action | b in Concat(later) ensures Apart(g, a.block, b.block) {
      ConcatMembers(later, b);
      var k :| 0 <= k < |later| && b in later[k];
      assert later[k] == lists[i + 1 + k][..before[i + 1 + k]];
      assert b in lists[i + 1 + k];
      assert ActionsApart(g, lists[i], lists[i + 1 + k]);
    }
  }

  lemma Rearrange<V>(m: Machine<V>, pre: seq<Action>, mid: seq<Action>, a: Action, post: seq<Action>, s: Store<V>)
    requires Run(m, [a] + post, Run(m, pre + mid, s)) == Run(m, post + [a], Run(m, pre + mid, s))
    ensures Run(m, pre + mid + post + [a], s) == Run(m, pre + (mid + [a]) + post, s)
  {
    RunAppend(m, pre + mid, post + [a], s);
    RunAppend(m, pre + mid, [a] + post, s);
    assert pre + mid + post + [a] == pre + mid + (post + [a]);
    assert pre + (mid + [a]) + post == pre + mid + ([a] + post);
  }
}
