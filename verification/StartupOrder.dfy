/**
 Kahn's algorithm as the plugin registry runs it: a first-in first-out queue over a
 multigraph in which one plugin may count several times among another's providers.
 */
module StartupOrder {

  datatype PluginID = PluginID(name: string)

  /** For every plugin, the providers of everything it requires, with repetitions. */
  type Graph = map<PluginID, seq<PluginID>>

  /** For every plugin, the plugins that wait for it, with repetitions. */
  type Dependents = map<PluginID, seq<PluginID>>

  function Waiting(deps: Dependents, id: PluginID): seq<PluginID> {
    if id in deps then deps[id] else []
  }

  predicate Closed(g: Graph) {
    forall d, p :: d in g && p in g[d] ==> p in g
  }

  // ---------------------------------------------------------------- what is wanted

  predicate Distinct(s: seq<PluginID>) {
    forall i, j :: 0 <= i < j < |s| ==> s[i] != s[j]
  }

  /** Every plugin once, and each one after all its providers. */
  ghost predicate IsStartupOrder(g: Graph, order: seq<PluginID>) {
    && Distinct(order)
    && (forall id :: id in order <==> id in g)
    && ProvidersFirst(g, order)
  }

  predicate ProvidersFirst(g: Graph, order: seq<PluginID>) {
    forall i, p :: 0 <= i < |order| && order[i] in g && p in g[order[i]] ==> p in order[..i]
  }

  /** A closed walk from provider to dependent; a plugin requiring itself is one of length two. */
  predicate IsCycle(g: Graph, walk: seq<PluginID>) {
    |walk| >= 2 && walk[0] == walk[|walk| - 1] && IsWalk(g, walk)
  }

  predicate IsWalk(g: Graph, walk: seq<PluginID>) {
    forall i :: 1 <= i < |walk| ==> Feeds(g, walk, i)
  }

  predicate Feeds(g: Graph, walk: seq<PluginID>, i: nat)
    requires 1 <= i < |walk|
  {
    walk[i] in g && walk[i - 1] in g[walk[i]]
  }

  ghost predicate Cyclic(g: Graph) {
    exists walk :: IsCycle(g, walk)
  }

  // ---------------------------------------------------------------- the algorithm

  datatype Kahn = Kahn(inDegree: map<PluginID, int>, queue: seq<PluginID>, order: seq<PluginID>)

  function RelaxOne(k: Kahn, d: PluginID): Kahn {
    var left := (if d in k.inDegree then k.inDegree[d] else 0) - 1;
    k.(inDegree := k.inDegree[d := left], queue := if left == 0 then k.queue + [d] else k.queue)
  }

  /** One edge less for every entry of `waiting`, in order. */
  function Relax(k: Kahn, waiting: seq<PluginID>): Kahn {
    if waiting == [] then k else RelaxOne(Relax(k, waiting[..|waiting| - 1]), waiting[|waiting| - 1])
  }

  function Pop(deps: Dependents, k: Kahn): Kahn
    requires k.queue != []
  {
    Relax(k.(queue := k.queue[1..], order := k.order + [k.queue[0]]), Waiting(deps, k.queue[0]))
  }

  function Drain(deps: Dependents, k: Kahn): Kahn
    decreases Work(k)
  {
    if k.queue == [] then k else PopShrinks(deps, k); Drain(deps, Pop(deps, k))
  }

  /** Plugins still to be queued, plus those queued. */
  ghost function Work(k: Kahn): nat {
    |set d | d in k.inDegree && k.inDegree[d] > 0| + |k.queue|
  }

  lemma {:induction false} RelaxShrinks(k: Kahn, waiting: seq<PluginID>)
    ensures Work(Relax(k, waiting)) <= Work(k)
  {
    if waiting != [] {
      var m := Relax(k, waiting[..|waiting| - 1]);
      var d := waiting[|waiting| - 1];
      RelaxShrinks(k, waiting[..|waiting| - 1]);
      var n := RelaxOne(m, d);
      var before := set x | x in m.inDegree && m.inDegree[x] > 0;
      var after := set x | x in n.inDegree && n.inDegree[x] > 0;
      assert after == if n.inDegree[d] > 0 then before else before - {d};
    }
  }

  /** Whatever the edges are, the queue loop ends. */
  lemma PopShrinks(deps: Dependents, k: Kahn)
    requires k.queue != []
    ensures Work(Pop(deps, k)) < Work(k)
  {
    RelaxShrinks(k.(queue := k.queue[1..], order := k.order + [k.queue[0]]), Waiting(deps, k.queue[0]));
  }

  // ---------------------------------------------------------------- counting

  /** How many entries of `providers` are not started yet. */
  function Pending(providers: seq<PluginID>, started: seq<PluginID>): nat {
    if providers == [] then 0
    else Pending(providers[1..], started) + if providers[0] in started then 0 else 1
  }

  lemma {:induction false} PendingZero(ps: seq<PluginID>, started: seq<PluginID>)
    ensures Pending(ps, started) == 0 <==> forall p :: p in ps ==> p in started
    ensures started == [] ==> Pending(ps, started) == |ps|
  {
    if ps != [] {
      PendingZero(ps[1..], started);
      assert ps == [ps[0]] + ps[1..];
    }
  }

  lemma {:induction false} PendingStart(ps: seq<PluginID>, started: seq<PluginID>, id: PluginID)
    requires id !in started
    ensures Pending(ps, started + [id]) == Pending(ps, started) - multiset(ps)[id]
  {
    if ps != [] {
      PendingStart(ps[1..], started, id);
      assert ps == [ps[0]] + ps[1..];
    }
  }

  /** What a round of relaxing does, for any edges at all. */
  lemma {:induction false} RelaxEffect(k: Kahn, waiting: seq<PluginID>)
    requires forall d :: d in waiting ==> d in k.inDegree
    ensures var r := Relax(k, waiting);
            && r.order == k.order && r.inDegree.Keys == k.inDegree.Keys
            && (forall d :: d in k.inDegree ==> r.inDegree[d] == k.inDegree[d] - multiset(waiting)[d])
            && k.queue <= r.queue && Distinct(r.queue[|k.queue|..])
            && (forall d :: d in r.queue[|k.queue|..] <==> d in k.inDegree && k.inDegree[d] > 0 && r.inDegree[d] <= 0)
  {
    if waiting != [] {
      var front, d := waiting[..|waiting| - 1], waiting[|waiting| - 1];
      assert waiting == front + [d];
      RelaxEffect(k, front);
      var m, r := Relax(k, front), Relax(k, waiting);
      assert r == RelaxOne(m, d);
      var n := |k.queue|;
      if m.inDegree[d] == 1 {
        assert r.queue[n..] == m.queue[n..] + [d];
      } else {
        assert r.queue == m.queue;
      }
    }
  }

  // ---------------------------------------------------------------- correctness

  /** Everything recorded belongs to a plugin of the graph. */
  ghost predicate Within(g: Graph, deps: Dependents) {
    forall p, d :: d in Waiting(deps, p) ==> d in g
  }

  /**
   The edges from p to d are recorded as often as they are in the graph, or more often than that
   and d has no other provider.
   */
  predicate Enough(g: Graph, deps: Dependents, p: PluginID, d: PluginID)
    requires d in g
  {
    var recorded, wanted := multiset(Waiting(deps, p))[d], multiset(g[d])[p];
    recorded == wanted || (recorded > wanted == |g[d]|)
  }

  ghost predicate Adequate(g: Graph, deps: Dependents) {
    && Within(g, deps)
    && (forall p, d :: p in g && d in g ==> Enough(g, deps, p, d))
  }

  /** A degree is the number of providers not started, or anything below once there are none. */
  predicate DegreeOk(degree: int, pending: nat) {
    degree == pending || (degree < 0 && pending == 0)
  }

  ghost predicate KahnInv(g: Graph, k: Kahn) {
    && k.inDegree.Keys == g.Keys
    && Distinct(k.order + k.queue)
    && (forall d :: d in g ==> DegreeOk(k.inDegree[d], Pending(g[d], k.order)))
    && (forall d :: d in k.order + k.queue <==> d in g && Pending(g[d], k.order) == 0)
    && ProvidersFirst(g, k.order)
  }

  lemma DistinctAppend(a: seq<PluginID>, b: seq<PluginID>)
    requires Distinct(a) && Distinct(b) && forall x :: x in a ==> x !in b
    ensures Distinct(a + b)
  {
    var s := a + b;
    forall i, j | 0 <= i < j < |s| ensures s[i] != s[j] {
      if j < |a| {
        assert a[i] != a[j];
      } else if i >= |a| {
        assert b[i - |a|] != b[j - |a|];
      } else {
        assert s[i] in a && s[j] in b;
      }
    }
  }

  lemma HeadIsNew(order: seq<PluginID>, queue: seq<PluginID>)
    requires queue != [] && Distinct(order + queue)
    ensures queue[0] !in order
  {
    var s := order + queue;
    assert s[|order|] == queue[0];
    assert forall i :: 0 <= i < |order| ==> order[i] == s[i];
  }

  lemma {:induction false} PendingBound(ps: seq<PluginID>, started: seq<PluginID>)
    ensures Pending(ps, started) <= |ps|
  {
    if ps != [] {
      PendingBound(ps[1..], started);
    }
  }

  lemma PopKeepsDegrees(g: Graph, deps: Dependents, k: Kahn)
    requires Closed(g) && Adequate(g, deps) && KahnInv(g, k)
    requires k.queue != [] && k.queue[0] in g && k.queue[0] !in k.order
    ensures var r := Pop(deps, k);
            forall d :: d in g ==>
              d in r.inDegree && DegreeOk(r.inDegree[d], Pending(g[d], k.order + [k.queue[0]]))
  {
    var id := k.queue[0];
    RelaxEffect(k.(queue := k.queue[1..], order := k.order + [id]), Waiting(deps, id));
    forall d | d in g ensures DegreeOk(Pop(deps, k).inDegree[d], Pending(g[d], k.order + [id])) {
      PendingStart(g[d], k.order, id);
      PendingBound(g[d], k.order);
      assert Enough(g, deps, id, d);
    }
  }

  /** Listed or queued are, once each, the plugins without degree left. */
  ghost predicate Listing(g: Graph, k: Kahn) {
    && k.inDegree.Keys == g.Keys && Distinct(k.order + k.queue)
    && forall d :: d in k.order + k.queue <==> d in g && k.inDegree[d] <= 0
  }

  /** A round appends to those listed or queued the plugins whose degree runs out. */
  lemma PopAdds(g: Graph, deps: Dependents, k: Kahn) returns (added: seq<PluginID>)
    requires Within(g, deps) && k.inDegree.Keys == g.Keys && k.queue != []
    ensures var r := Pop(deps, k);
            && r.order == k.order + [k.queue[0]] && r.order + r.queue == k.order + k.queue + added
            && Distinct(added) && r.inDegree.Keys == g.Keys
            && (forall d :: d in g ==> r.inDegree[d] <= k.inDegree[d])
            && (forall d :: d in added <==> d in g && k.inDegree[d] > 0 && r.inDegree[d] <= 0)
  {
    var k0 := k.(queue := k.queue[1..], order := k.order + [k.queue[0]]);
    RelaxEffect(k0, Waiting(deps, k.queue[0]));
    added := Pop(deps, k).queue[|k0.queue|..];
    assert k.order + k.queue == k0.order + k0.queue;
  }

  /** What was listed stays listed, and the plugins whose degree ran out join the queue. */
  lemma PopKeepsListing(g: Graph, deps: Dependents, k: Kahn)
    requires Within(g, deps) && Listing(g, k) && k.queue != []
    ensures Listing(g, Pop(deps, k)) && Pop(deps, k).order == k.order + [k.queue[0]]
  {
    var known := k.order + k.queue;
    var added := PopAdds(g, deps, k);
    DistinctAppend(known, added);
    assert forall d :: d in known + added <==> d in known || d in added;
  }

  lemma PopKeepsInv(g: Graph, deps: Dependents, k: Kahn)
    requires Closed(g) && Adequate(g, deps) && KahnInv(g, k) && k.queue != []
    ensures KahnInv(g, Pop(deps, k))
  {
    var id := k.queue[0];
    var r := Pop(deps, k);
    assert id in k.order + k.queue;
    HeadIsNew(k.order, k.queue);
    PopKeepsDegrees(g, deps, k);
    PopKeepsListing(g, deps, k);
    PendingZero(g[id], k.order);
    StartKeepsProvidersFirst(g, k.order, id);
  }

  lemma StartKeepsProvidersFirst(g: Graph, order: seq<PluginID>, id: PluginID)
    requires ProvidersFirst(g, order) && id in g && forall p :: p in g[id] ==> p in order
    ensures ProvidersFirst(g, order + [id])
  {
    var longer := order + [id];
    forall i, p | 0 <= i < |longer| && longer[i] in g && p in g[longer[i]] ensures p in longer[..i] {
      assert longer[..i] == order[..i];
    }
  }

  lemma {:induction false} DrainKeepsInv(g: Graph, deps: Dependents, k: Kahn)
    requires Closed(g) && Adequate(g, deps) && KahnInv(g, k)
    ensures KahnInv(g, Drain(deps, k)) && Drain(deps, k).queue == []
    decreases Work(k)
  {
    if k.queue != [] {
      PopKeepsInv(g, deps, k);
      PopShrinks(deps, k);
      DrainKeepsInv(g, deps, Pop(deps, k));
    }
  }

  ghost predicate Stuck(g: Graph, stuck: set<PluginID>) {
    forall d {:trigger WaitsFor(g, stuck, d)} :: d in stuck ==> WaitsFor(g, stuck, d)
  }

  ghost predicate WaitsFor(g: Graph, stuck: set<PluginID>, d: PluginID) {
    d in g && exists p :: p in g[d] && p in stuck
  }

  lemma ConsWalk(g: Graph, p: PluginID, walk: seq<PluginID>)
    requires walk != [] && IsWalk(g, walk) && walk[0] in g && p in g[walk[0]]
    ensures IsWalk(g, [p] + walk)
  {
    var longer := [p] + walk;
    forall i | 1 <= i < |longer| ensures Feeds(g, longer, i) {
      assert i > 1 ==> Feeds(g, walk, i - 1);
    }
  }

  lemma PrefixWalk(g: Graph, walk: seq<PluginID>, n: nat)
    requires IsWalk(g, walk) && n <= |walk|
    ensures IsWalk(g, walk[..n])
  {
    forall i | 1 <= i < n ensures Feeds(g, walk[..n], i) {
      assert Feeds(g, walk, i);
    }
  }

  lemma CloseCycle(g: Graph, walk: seq<PluginID>, i: nat)
    requires IsWalk(g, walk) && 1 <= i < |walk| && walk[i] == walk[0]
    ensures Cyclic(g)
  {
    PrefixWalk(g, walk, i + 1);
    assert IsCycle(g, walk[..i + 1]);
  }

  /** Among plugins that all wait for one another, following providers backwards closes a cycle. */
  lemma {:induction false} StuckSetHasCycle(g: Graph, stuck: set<PluginID>, walk: seq<PluginID>)
    requires Stuck(g, stuck) && walk != [] && IsWalk(g, walk)
    requires Distinct(walk) && forall x :: x in walk ==> x in stuck
    ensures Cyclic(g)
    decreases |stuck| - |walk|
  {
    var d := walk[0];
    assert WaitsFor(g, stuck, d);
    var p :| p in g[d] && p in stuck;
    ConsWalk(g, p, walk);
    if p in walk {
      var i :| 0 <= i < |walk| && walk[i] == p;
      CloseCycle(g, [p] + walk, i + 1);
    } else {
      DistinctAppend([p], walk);
      DistinctFits([p] + walk, stuck);
      StuckSetHasCycle(g, stuck, [p] + walk);
    }
  }

  lemma {:induction false} DistinctFits(s: seq<PluginID>, within: set<PluginID>)
    requires Distinct(s) && forall x :: x in s ==> x in within
    ensures |s| <= |within|
  {
    if s != [] {
      assert s == [s[0]] + s[1..];
      DistinctFits(s[1..], within - {s[0]});
    }
  }

  /** In a startup order every step of a walk goes forward, so no walk returns. */
  lemma {:induction false} WalkGoesForward(g: Graph, order: seq<PluginID>, walk: seq<PluginID>, i: nat)
    requires IsStartupOrder(g, order) && IsWalk(g, walk) && |walk| >= 2 && i < |order|
    requires walk[|walk| - 1] == order[i]
    ensures walk[0] in order[..i]
  {
    var n := |walk|;
    assert Feeds(g, walk, n - 1);
    assert walk[n - 2] in order[..i];
    if n > 2 {
      var j :| 0 <= j < i && order[j] == walk[n - 2];
      PrefixWalk(g, walk, n - 1);
      WalkGoesForward(g, order, walk[..n - 1], j);
    }
  }

  lemma OrderedMeansAcyclic(g: Graph, order: seq<PluginID>)
    requires IsStartupOrder(g, order)
    ensures !Cyclic(g)
  {
    forall walk | IsCycle(g, walk) ensures false {
      assert Feeds(g, walk, |walk| - 1);
      var i :| 0 <= i < |order| && order[i] == walk[|walk| - 1];
      WalkGoesForward(g, order, walk, i);
    }
  }

  /** The state the queue loop starts in; `queue` lists the plugins without providers in any order. */
  ghost predicate Starts(g: Graph, k: Kahn) {
    && k.inDegree == (map d | d in g :: |g[d]|)
    && k.order == [] && Distinct(k.queue)
    && (forall d :: d in k.queue <==> d in g && g[d] == [])
  }

  /**
   Soundness and completeness: when the recorded edges are those of the graph, or repeat those of
   plugins with one provider, the loop lists every plugin exactly when there is no cycle, and then
   each provider precedes its dependents.
   */
  lemma DrainIsCorrect(g: Graph, deps: Dependents, k: Kahn)
    requires Closed(g) && Adequate(g, deps) && Starts(g, k)
    ensures var order := Drain(deps, k).order;
            && (|order| == |g| ==> IsStartupOrder(g, order))
            && (|order| != |g| <==> Cyclic(g))
  {
    StartKeepsInv(g, k);
    DrainKeepsInv(g, deps, k);
    EmptyQueueVerdict(g, Drain(deps, k));
  }

  lemma StartKeepsInv(g: Graph, k: Kahn)
    requires Starts(g, k)
    ensures KahnInv(g, k)
  {
    forall d | d in g ensures |g[d]| == Pending(g[d], []) && (Pending(g[d], []) == 0 <==> g[d] == []) {
      PendingZero(g[d], []);
    }
    assert k.order + k.queue == k.queue;
  }

  lemma EmptyQueueVerdict(g: Graph, k: Kahn)
    requires Closed(g) && KahnInv(g, k) && k.queue == []
    ensures |k.order| == |g| ==> IsStartupOrder(g, k.order)
    ensures |k.order| != |g| <==> Cyclic(g)
  {
    var listed := set d | d in k.order;
    var stuck := g.Keys - listed;
    assert k.order + k.queue == k.order;
    assert listed + stuck == g.Keys;
    DistinctCount(k.order, listed);
    if stuck == {} {
      assert forall id :: id in k.order <==> id in listed;
      OrderedMeansAcyclic(g, k.order);
    } else {
      UnlistedIsStuck(g, k, stuck);
      var d :| d in stuck;
      StuckSetHasCycle(g, stuck, [d]);
    }
  }

  lemma UnlistedIsStuck(g: Graph, k: Kahn, stuck: set<PluginID>)
    requires Closed(g) && KahnInv(g, k) && k.queue == []
    requires forall d :: d in stuck <==> d in g && d !in k.order
    ensures Stuck(g, stuck)
  {
    assert k.order + k.queue == k.order;
    forall d | d in stuck ensures WaitsFor(g, stuck, d) {
      PendingZero(g[d], k.order);
      var p :| p in g[d] && p !in k.order;
    }
  }

  lemma {:induction false} DistinctCount(s: seq<PluginID>, elems: set<PluginID>)
    requires Distinct(s) && forall x :: x in s <==> x in elems
    ensures |s| == |elems|
  {
    if s != [] {
      assert s == [s[0]] + s[1..];
      DistinctCount(s[1..], elems - {s[0]});
    } else {
      assert elems == {};
    }
  }

  // ---------------------------------------------------------------- the verdict for any recorded edges

  /** How often d stands on the waiting lists of the plugins in `out`. */
  function Received(deps: Dependents, out: seq<PluginID>, d: PluginID): nat {
    if out == [] then 0
    else Received(deps, out[..|out| - 1], d) + multiset(Waiting(deps, out[|out| - 1]))[d]
  }

  /** A part of the graph that holds up the rest: outside it every plugin gets too few edges from it. */
  ghost predicate Stalls(g: Graph, deps: Dependents, out: seq<PluginID>) {
    && Distinct(out) && (forall p :: p in out ==> p in g) && |out| < |g|
    && forall d :: d in g && d !in out ==> Received(deps, out, d) < |g[d]|
  }

  lemma ReceivedSnoc(deps: Dependents, out: seq<PluginID>, p: PluginID, d: PluginID)
    ensures Received(deps, out + [p], d) == Received(deps, out, d) + multiset(Waiting(deps, p))[d]
  {
    assert (out + [p])[..|out|] == out;
  }

  lemma {:induction false} ReceivedSplit(deps: Dependents, a: seq<PluginID>, b: seq<PluginID>, d: PluginID)
    ensures Received(deps, a + b, d) == Received(deps, a, d) + Received(deps, b, d)
  {
    if b == [] {
      assert a + b == a;
    } else {
      var front, p := b[..|b| - 1], b[|b| - 1];
      ReceivedSplit(deps, a, front, d);
      assert a + b == (a + front) + [p];
      ReceivedSnoc(deps, a + front, p, d);
    }
  }

  /** More plugins started means more edges received, in whatever order they stand. */
  lemma {:induction false} ReceivedGrows(deps: Dependents, a: seq<PluginID>, b: seq<PluginID>, d: PluginID)
    requires Distinct(a) && forall p :: p in a ==> p in b
    ensures Received(deps, a, d) <= Received(deps, b, d)
    decreases |a|
  {
    if a != [] {
      var front, p := a[..|a| - 1], a[|a| - 1];
      assert p in a;
      var i :| 0 <= i < |b| && b[i] == p;
      var before, after := b[..i], b[i + 1..];
      assert b == (before + [p]) + after;
      forall q | q in front ensures q in before + after {
        assert q in a && q != p;
        assert q in before || q in [p] || q in after;
      }
      ReceivedGrows(deps, front, before + after, d);
      ReceivedSplit(deps, before, after, d);
      ReceivedSplit(deps, before + [p], after, d);
      ReceivedSnoc(deps, before, p, d);
    }
  }

  /** Each plugin was started when it had received as many edges as it has provider entries. */
  ghost predicate Earned(g: Graph, deps: Dependents, order: seq<PluginID>) {
    forall i :: 0 <= i < |order| ==> EarnedAt(g, deps, order, i)
  }

  predicate EarnedAt(g: Graph, deps: Dependents, order: seq<PluginID>, i: nat)
    requires i < |order|
  {
    order[i] in g && |g[order[i]]| <= Received(deps, order[..i], order[i])
  }

  /** The degree is what has not been received yet; it may have gone below zero. */
  ghost predicate CountInv(g: Graph, deps: Dependents, k: Kahn) {
    && Listing(g, k) && Earned(g, deps, k.order)
    && forall d :: d in g ==> k.inDegree[d] == |g[d]| - Received(deps, k.order, d)
  }

  lemma PopKeepsCount(g: Graph, deps: Dependents, k: Kahn)
    requires Within(g, deps) && CountInv(g, deps, k) && k.queue != []
    ensures CountInv(g, deps, Pop(deps, k))
  {
    var id := k.queue[0];
    PopKeepsListing(g, deps, k);
    RelaxEffect(k.(queue := k.queue[1..], order := k.order + [id]), Waiting(deps, id));
    forall d | d in g ensures Pop(deps, k).inDegree[d] == |g[d]| - Received(deps, k.order + [id], d) {
      ReceivedSnoc(deps, k.order, id, d);
    }
    assert id in k.order + k.queue;
    EarnedSnoc(g, deps, k.order, id);
  }

  lemma EarnedSnoc(g: Graph, deps: Dependents, order: seq<PluginID>, id: PluginID)
    requires Earned(g, deps, order) && id in g && |g[id]| <= Received(deps, order, id)
    ensures Earned(g, deps, order + [id])
  {
    var longer := order + [id];
    forall i | 0 <= i < |longer| ensures EarnedAt(g, deps, longer, i) {
      assert longer[..i] == order[..i];
      assert i < |order| ==> EarnedAt(g, deps, order, i);
      assert order[..|order|] == order;
    }
  }

  lemma {:induction false} DrainKeepsCount(g: Graph, deps: Dependents, k: Kahn)
    requires Within(g, deps) && CountInv(g, deps, k)
    ensures CountInv(g, deps, Drain(deps, k)) && Drain(deps, k).queue == []
    decreases Work(k)
  {
    if k.queue != [] {
      PopKeepsCount(g, deps, k);
      PopShrinks(deps, k);
      DrainKeepsCount(g, deps, Pop(deps, k));
    }
  }

  /** Whatever holds up the rest is never left. */
  lemma {:induction false} DrainStaysInside(g: Graph, deps: Dependents, k: Kahn, out: seq<PluginID>)
    requires Within(g, deps) && CountInv(g, deps, k) && Stalls(g, deps, out)
    requires forall p :: p in k.order + k.queue ==> p in out
    ensures forall p :: p in Drain(deps, k).order ==> p in out
    decreases Work(k)
  {
    if k.queue == [] {
      assert k.order + k.queue == k.order;
    } else {
      var r := Pop(deps, k);
      PopKeepsCount(g, deps, k);
      PopShrinks(deps, k);
      OrderInside(g, deps, k, out);
      forall d | d in r.order + r.queue ensures d in out {
        ReceivedGrows(deps, r.order, out, d);
      }
      DrainStaysInside(g, deps, r, out);
    }
  }

  /** After a round the order is duplicate-free and consists of what was listed or queued before. */
  lemma OrderInside(g: Graph, deps: Dependents, k: Kahn, out: seq<PluginID>)
    requires Within(g, deps) && CountInv(g, deps, k) && k.queue != []
    requires forall p :: p in k.order + k.queue ==> p in out
    ensures Distinct(Pop(deps, k).order) && forall p :: p in Pop(deps, k).order ==> p in out
  {
    PopKeepsListing(g, deps, k);
    var r := Pop(deps, k);
    var all := r.order + r.queue;
    assert forall i :: 0 <= i < |r.order| ==> r.order[i] == all[i];
    assert k.queue[0] in k.order + k.queue;
    assert forall p :: p in k.order ==> p in k.order + k.queue;
  }

  /**
   The verdict for any edges recorded so far, right or wrong: the loop leaves plugins out if and only
   if some part of the graph holds up the rest, whatever the order of the queue and of the lists.
   */
  lemma DrainVerdict(g: Graph, deps: Dependents, k: Kahn)
    requires Within(g, deps) && Starts(g, k)
    ensures |Drain(deps, k).order| != |g| <==> exists out :: Stalls(g, deps, out)
    ensures |Drain(deps, k).order| == |g| ==> AllOnce(g, Drain(deps, k).order)
    ensures Earned(g, deps, Drain(deps, k).order) && Distinct(Drain(deps, k).order)
  {
    assert k.order + k.queue == k.queue;
    DrainKeepsCount(g, deps, k);
    var order := Drain(deps, k).order;
    assert order + Drain(deps, k).queue == order;
    DistinctFits(order, g.Keys);
    if |order| != |g| {
      assert Stalls(g, deps, order);
    } else {
      FullIsAll(g, order);
    }
    if out :| Stalls(g, deps, out) {
      forall p | p in k.queue ensures p in out {
        assert g[p] == [];
      }
      DrainStaysInside(g, deps, k, out);
      DistinctFits(order, set p | p in out);
      SetOfDistinct(out);
    }
  }

  /** Every plugin once, in any order. */
  ghost predicate AllOnce(g: Graph, order: seq<PluginID>) {
    Distinct(order) && forall id :: id in order <==> id in g
  }

  lemma FullIsAll(g: Graph, order: seq<PluginID>)
    requires Distinct(order) && (forall p :: p in order ==> p in g) && |order| == |g|
    ensures AllOnce(g, order)
  {
    assert |g.Keys| == |g|;
    forall d | d in g && d !in order ensures false {
      DistinctFits(order, g.Keys - {d});
    }
  }

  lemma SetOfDistinct(s: seq<PluginID>)
    requires Distinct(s)
    ensures |set p | p in s| == |s|
  {
    DistinctCount(s, set p | p in s);
  }

  // ---------------------------------------------------------------- in terms of the edges of earlier calls

  /** The provider entries of a plugin that stand outside `out`, plus those inside, are all of them. */
  lemma {:induction false} EntriesInside(ps: seq<PluginID>, out: seq<PluginID>)
    requires Distinct(out)
    ensures Entries(ps, out) + Pending(ps, out) == |ps|
  {
    if out == [] {
      PendingZero(ps, out);
    } else {
      var front, p := out[..|out| - 1], out[|out| - 1];
      assert out == front + [p];
      EntriesInside(ps, front);
      assert p !in front;
      PendingStart(ps, front, p);
    }
  }

  function Entries(ps: seq<PluginID>, out: seq<PluginID>): nat {
    if out == [] then 0 else Entries(ps, out[..|out| - 1]) + multiset(ps)[out[|out| - 1]]
  }

  /** `deps` has the edges of the graph once more than `before`. */
  ghost predicate RecordedOnce(g: Graph, before: Dependents, deps: Dependents) {
    && Within(g, deps)
    && forall p, d :: d in g ==>
         multiset(Waiting(deps, p))[d] == multiset(Waiting(before, p))[d] + multiset(g[d])[p]
  }

  /** Outside `out` every plugin has more provider entries outside than edges it got from inside earlier. */
  ghost predicate Blocks(g: Graph, before: Dependents, out: seq<PluginID>) {
    && Distinct(out) && (forall p :: p in out ==> p in g) && |out| < |g|
    && forall d :: d in g && d !in out ==> Received(before, out, d) < Pending(g[d], out)
  }

  lemma {:induction false} ReceivedOnce(g: Graph, before: Dependents, deps: Dependents, out: seq<PluginID>, d: PluginID)
    requires RecordedOnce(g, before, deps) && d in g
    ensures Received(deps, out, d) == Received(before, out, d) + Entries(g[d], out)
  {
    if out != [] {
      ReceivedOnce(g, before, deps, out[..|out| - 1], d);
    }
  }

  /** The provider entries a plugin starts ahead of are no more than the edges it got earlier from those started. */
  ghost predicate EnoughStarted(g: Graph, before: Dependents, order: seq<PluginID>) {
    forall i :: 0 <= i < |order| ==> EnoughStartedAt(g, before, order, i)
  }

  predicate EnoughStartedAt(g: Graph, before: Dependents, order: seq<PluginID>, i: nat)
    requires i < |order|
  {
    order[i] in g && Pending(g[order[i]], order[..i]) <= Received(before, order[..i], order[i])
  }

  lemma EarnedOnce(g: Graph, before: Dependents, deps: Dependents, order: seq<PluginID>)
    requires RecordedOnce(g, before, deps) && Earned(g, deps, order) && Distinct(order)
    ensures EnoughStarted(g, before, order)
  {
    forall i | 0 <= i < |order| ensures EnoughStartedAt(g, before, order, i) {
      assert EarnedAt(g, deps, order, i);
      ReceivedOnce(g, before, deps, order[..i], order[i]);
      EntriesInside(g[order[i]], order[..i]);
    }
  }

  lemma StallsIffBlocks(g: Graph, before: Dependents, deps: Dependents, out: seq<PluginID>)
    requires RecordedOnce(g, before, deps)
    ensures Stalls(g, deps, out) <==> Blocks(g, before, out)
  {
    if Distinct(out) {
      forall d | d in g ensures Received(deps, out, d) < |g[d]| <==> Received(before, out, d) < Pending(g[d], out) {
        ReceivedOnce(g, before, deps, out, d);
        EntriesInside(g[d], out);
      }
    }
  }

  /** What blocks contains all that could start, so a cycle lies outside it. */
  lemma BlockedIsCyclic(g: Graph, before: Dependents, out: seq<PluginID>)
    requires Closed(g) && Blocks(g, before, out)
    ensures Cyclic(g)
  {
    var stuck := set d | d in g && d !in out;
    forall d | d in stuck ensures WaitsFor(g, stuck, d) {
      PendingZero(g[d], out);
      var p :| p in g[d] && p !in out;
    }
    var d := SomeOutside(g, out);
    StuckSetHasCycle(g, stuck, [d]);
  }

  lemma SomeOutside(g: Graph, out: seq<PluginID>) returns (d: PluginID)
    requires Distinct(out) && (forall p :: p in out ==> p in g) && |out| < |g|
    ensures d in g && d !in out
  {
    var inside := set p | p in out;
    SetOfDistinct(out);
    assert |g.Keys| == |g|;
    assert g.Keys != inside;
    d :| d in g.Keys && d !in inside;
  }

  /**
   A call on top of any earlier edges: it refuses exactly if something blocks, it refuses only
   cyclic graphs, and what it accepts lists every plugin once.
   */
  lemma RepeatedVerdict(g: Graph, before: Dependents, deps: Dependents, k: Kahn)
    requires Closed(g) && RecordedOnce(g, before, deps) && Starts(g, k)
    ensures |Drain(deps, k).order| != |g| <==> exists out :: Blocks(g, before, out)
    ensures |Drain(deps, k).order| != |g| ==> Cyclic(g)
    ensures |Drain(deps, k).order| == |g| ==> AllOnce(g, Drain(deps, k).order)
    ensures EnoughStarted(g, before, Drain(deps, k).order)
  {
    DrainVerdict(g, deps, k);
    EarnedOnce(g, before, deps, Drain(deps, k).order);
    if out :| Stalls(g, deps, out) {
      StallsIffBlocks(g, before, deps, out);
      BlockedIsCyclic(g, before, out);
    }
    if out :| Blocks(g, before, out) {
      StallsIffBlocks(g, before, deps, out);
    }
  }
}
