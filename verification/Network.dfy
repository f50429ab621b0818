/** The device graph: hop paths by breadth-first search, and reachability from a foothold. */
module Network {
  import opened Wrappers

  type DeviceId = nat

  datatype Device = Device(id: DeviceId, name: string)

  type Links = map<DeviceId, set<DeviceId>>

  function Neighbors(links: Links, v: DeviceId): set<DeviceId> {
    if v in links then links[v] else {}
  }

  /// Paths

  predicate IsPath(links: Links, p: seq<DeviceId>) {
    p != [] && forall i :: 0 < i < |p| ==> p[i] in Neighbors(links, p[i - 1])
  }

  predicate PathBetween(links: Links, a: DeviceId, b: DeviceId, p: seq<DeviceId>) {
    IsPath(links, p) && p[0] == a && p[|p| - 1] == b
  }

  ghost predicate Connected(links: Links, a: DeviceId, b: DeviceId) {
    exists p :: PathBetween(links, a, b, p)
  }

  predicate NoRepeats(p: seq<DeviceId>) {
    forall i, j :: 0 <= i < j < |p| ==> p[i] != p[j]
  }

  /** Undirected, and every endpoint has an entry. */
  predicate Undirected(links: Links) {
    forall a, b :: a in links && b in links[a] ==> b in links && a in links[b]
  }

  /// The search state

  /** What a search has seen, how it got there, and what is queued; `depth` is the ghost level of each
      seen vertex. */
  datatype Search = Search(seen: set<DeviceId>, prev: map<DeviceId, DeviceId>, queue: seq<DeviceId>)

  ghost predicate TreeOk(links: Links, source: DeviceId, s: Search, depth: map<DeviceId, nat>) {
    && depth.Keys == s.seen && source in depth && depth[source] == 0
    && s.prev.Keys == s.seen - {source}
    && forall v :: v in s.prev ==>
         s.prev[v] in depth && v in Neighbors(links, s.prev[v]) && depth[v] == depth[s.prev[v]] + 1
  }

  /** The queue is in order of depth and spans at most two levels, the lower of them `base`. */
  ghost predicate QueueOk(s: Search, depth: map<DeviceId, nat>, base: nat) {
    && (forall i :: 0 <= i < |s.queue| ==> s.queue[i] in depth && base <= depth[s.queue[i]] <= base + 1)
    && (forall i, j :: 0 <= i < j < |s.queue| && s.queue[i] in depth && s.queue[j] in depth ==>
          depth[s.queue[i]] <= depth[s.queue[j]])
  }

  /** The neighbours of `v` outside `todo` are seen, at most one level deeper. */
  ghost predicate Spread(links: Links, depth: map<DeviceId, nat>, v: DeviceId, todo: set<DeviceId>)
    requires v in depth
  {
    forall w :: w in Neighbors(links, v) && w !in todo ==> w in depth && depth[w] <= depth[v] + 1
  }

  /** Every seen vertex that is neither queued nor `current` has been expanded. */
  ghost predicate ExpandedBut(links: Links, s: Search, depth: map<DeviceId, nat>, current: set<DeviceId>) {
    forall v :: v in depth && v !in s.queue && v !in current ==> Spread(links, depth, v, {})
  }

  /** Every vertex a path of at most `base` links leads to has been seen, no deeper than the path is long. */
  lemma {:induction false} ShortPathsAreSeen(links: Links, source: DeviceId, s: Search, depth: map<DeviceId, nat>,
                                             base: nat, current: set<DeviceId>, p: seq<DeviceId>)
    requires TreeOk(links, source, s, depth) && QueueOk(s, depth, base) && ExpandedBut(links, s, depth, current)
    requires forall v :: v in current && v in depth ==> depth[v] >= base
    requires IsPath(links, p) && p[0] == source && |p| - 1 <= base
    ensures p[|p| - 1] in depth && depth[p[|p| - 1]] <= |p| - 1
  {
    if |p| > 1 {
      var front, u := p[..|p| - 1], p[|p| - 2];
      ShortPathsAreSeen(links, source, s, depth, base, current, front);
      assert Spread(links, depth, u, {});
    }
  }

  /** When nothing is queued every reachable vertex has been seen. */
  lemma {:induction false} NothingUnseen(links: Links, source: DeviceId, s: Search, depth: map<DeviceId, nat>,
                                         p: seq<DeviceId>)
    requires TreeOk(links, source, s, depth) && ExpandedBut(links, s, depth, {}) && s.queue == []
    requires IsPath(links, p) && p[0] == source
    ensures p[|p| - 1] in s.seen
  {
    if |p| > 1 {
      NothingUnseen(links, source, s, depth, p[..|p| - 1]);
      assert Spread(links, depth, p[|p| - 2], {});
    }
  }

  /** The path `prev` records to a seen vertex. */
  ghost function TreePath(links: Links, source: DeviceId, s: Search, depth: map<DeviceId, nat>,
                          v: DeviceId): (p: seq<DeviceId>)
    requires TreeOk(links, source, s, depth) && v in depth
    ensures |p| == depth[v] + 1
    decreases depth[v]
  {
    if v == source then [v] else TreePath(links, source, s, depth, s.prev[v]) + [v]
  }

  lemma {:induction false} TreePathsArePaths(links: Links, source: DeviceId, s: Search, depth: map<DeviceId, nat>,
                                             v: DeviceId)
    requires TreeOk(links, source, s, depth) && v in depth
    ensures PathBetween(links, source, v, TreePath(links, source, s, depth, v))
    ensures forall i :: 0 <= i <= depth[v] ==>
              TreePath(links, source, s, depth, v)[i] in depth && depth[TreePath(links, source, s, depth, v)[i]] == i
    decreases depth[v]
  {
    if v != source {
      TreePathsArePaths(links, source, s, depth, s.prev[v]);
    }
  }

  function Reverse(p: seq<DeviceId>): (r: seq<DeviceId>)
    ensures |r| == |p| && forall i :: 0 <= i < |p| ==> r[i] == p[|p| - 1 - i]
  {
    if p == [] then [] else Reverse(p[1..]) + [p[0]]
  }

  /** Follow `prev` back to where it starts, then reverse. */
  method Reconstruct(links: Links, source: DeviceId, s: Search, ghost depth: map<DeviceId, nat>, target: DeviceId)
    returns (path: seq<DeviceId>)
    requires TreeOk(links, source, s, depth) && target in depth
    ensures path == TreePath(links, source, s, depth, target)
  {
    var back, cur := [target], target;
    while cur in s.prev
      invariant cur in depth && back != [] && back[|back| - 1] == cur
      invariant TreePath(links, source, s, depth, cur) + Reverse(back)[1..] == TreePath(links, source, s, depth, target)
      decreases depth[cur]
    {
      var p := s.prev[cur];
      ReversePush(back, p);
      assert TreePath(links, source, s, depth, p) + Reverse(back) ==
             TreePath(links, source, s, depth, cur) + Reverse(back)[1..];
      back, cur := back + [p], p;
    }
    path := Reverse(back);
    StartsAtSource(links, source, s, depth, cur, back, target);
  }

  lemma ReversePush(back: seq<DeviceId>, p: DeviceId)
    requires back != []
    ensures Reverse(back + [p]) == [p] + Reverse(back)
    ensures Reverse(back + [p])[1..] == Reverse(back)
  {
  }

  lemma StartsAtSource(links: Links, source: DeviceId, s: Search, depth: map<DeviceId, nat>, cur: DeviceId,
                       back: seq<DeviceId>, target: DeviceId)
    requires TreeOk(links, source, s, depth) && cur in depth && cur !in s.prev && target in depth && back != []
    requires back[|back| - 1] == cur
    requires TreePath(links, source, s, depth, cur) + Reverse(back)[1..] == TreePath(links, source, s, depth, target)
    ensures Reverse(back) == TreePath(links, source, s, depth, target)
  {
    assert Reverse(back) == [Reverse(back)[0]] + Reverse(back)[1..];
  }

  /// One vertex's expansion

  ghost predicate SearchOk(links: Links, source: DeviceId, s: Search, depth: map<DeviceId, nat>, base: nat,
                           current: set<DeviceId>) {
    && TreeOk(links, source, s, depth)
    && QueueOk(s, depth, base)
    && ExpandedBut(links, s, depth, current)
  }

  ghost predicate Expanding(links: Links, source: DeviceId, s: Search, depth: map<DeviceId, nat>, node: DeviceId,
                            todo: set<DeviceId>) {
    && node in depth
    && SearchOk(links, source, s, depth, depth[node], {node})
    && Spread(links, depth, node, todo)
  }

  function Visit(s: Search, node: DeviceId, w: DeviceId): Search {
    Search(s.seen + {w}, s.prev[w := node], s.queue + [w])
  }

  lemma VisitTree(links: Links, source: DeviceId, s: Search, depth: map<DeviceId, nat>, node: DeviceId, w: DeviceId)
    requires TreeOk(links, source, s, depth) && node in depth && w in Neighbors(links, node) && w !in s.seen
    ensures TreeOk(links, source, Visit(s, node, w), depth[w := depth[node] + 1])
  {
  }

  lemma VisitQueue(links: Links, source: DeviceId, s: Search, depth: map<DeviceId, nat>, node: DeviceId, w: DeviceId)
    requires TreeOk(links, source, s, depth) && node in depth && QueueOk(s, depth, depth[node]) && w !in s.seen
    ensures QueueOk(Visit(s, node, w), depth[w := depth[node] + 1], depth[node])
  {
  }

  lemma VisitExpands(links: Links, s: Search, depth: map<DeviceId, nat>, node: DeviceId, w: DeviceId)
    requires ExpandedBut(links, s, depth, {node}) && node in depth && w !in depth
    ensures ExpandedBut(links, Visit(s, node, w), depth[w := depth[node] + 1], {node})
  {
    var depth' := depth[w := depth[node] + 1];
    forall v | v in depth' && v !in Visit(s, node, w).queue && v != node
      ensures Spread(links, depth', v, {})
    {
      assert v != w by { assert Visit(s, node, w).queue[|s.queue|] == w; }
      assert v !in s.queue by { assert forall i :: 0 <= i < |s.queue| ==> Visit(s, node, w).queue[i] == s.queue[i]; }
      assert Spread(links, depth, v, {});
    }
  }

  /** Seeing one neighbour keeps the search in order. */
  lemma VisitKeeps(links: Links, source: DeviceId, s: Search, depth: map<DeviceId, nat>, node: DeviceId,
                   todo: set<DeviceId>, w: DeviceId)
    requires Expanding(links, source, s, depth, node, todo) && w in todo && w in Neighbors(links, node)
    ensures w !in s.seen ==> Expanding(links, source, Visit(s, node, w), depth[w := depth[node] + 1], node, todo - {w})
    ensures w in s.seen && depth[w] <= depth[node] + 1 ==> Expanding(links, source, s, depth, node, todo - {w})
  {
    if w !in s.seen {
      VisitTree(links, source, s, depth, node, w);
      VisitQueue(links, source, s, depth, node, w);
      VisitExpands(links, s, depth, node, w);
    }
  }

  /** A seen neighbour is never more than one level deeper: nothing seen is. */
  ghost predicate Shallow(depth: map<DeviceId, nat>, base: nat) {
    forall v :: v in depth ==> depth[v] <= base + 1
  }

  /** See every new neighbour of `node`, in any order, stopping as soon as `target` is seen. */
  method Expand(links: Links, source: DeviceId, s: Search, ghost depth: map<DeviceId, nat>, node: DeviceId,
                target: Option<DeviceId>)
    returns (s': Search, ghost depth': map<DeviceId, nat>, found: bool)
    requires Expanding(links, source, s, depth, node, Neighbors(links, node)) && Shallow(depth, depth[node])
    requires target.Some? ==> target.value !in s.seen
    ensures node in depth' && depth'[node] == depth[node] && Shallow(depth', depth[node])
    ensures TreeOk(links, source, s', depth')
    ensures found ==> target.Some? && target.value in depth' && depth'[target.value] == depth[node] + 1
    ensures !found ==> Expanding(links, source, s', depth', node, {})
    ensures !found && target.Some? ==> target.value !in s'.seen
    ensures s.seen <= s'.seen <= s.seen + Neighbors(links, node)
    ensures s'.seen == s.seen ==> s' == s
  {
    s', depth', found := s, depth, false;
    var todo := Neighbors(links, node);
    while todo != {}
      invariant todo <= Neighbors(links, node)
      invariant node in depth' && depth'[node] == depth[node] && Shallow(depth', depth[node])
      invariant Expanding(links, source, s', depth', node, todo)
      invariant target.Some? ==> target.value !in s'.seen
      invariant s.seen <= s'.seen <= s.seen + Neighbors(links, node)
      invariant s'.seen == s.seen ==> s' == s
      decreases todo
    {
      var w :| w in todo;
      VisitKeeps(links, source, s', depth', node, todo, w);
      todo := todo - {w};
      if w !in s'.seen {
        var before := s';
        s', depth' := Visit(s', node, w), depth'[w := depth'[node] + 1];
        if target == Some(w) {
          s', found := s'.(queue := before.queue), true;
          return;
        }
      }
    }
  }

  /// Whole searches

  /** The queue between two expansions: its first vertex sets the level. */
  ghost predicate Paused(links: Links, source: DeviceId, s: Search, depth: map<DeviceId, nat>) {
    && TreeOk(links, source, s, depth)
    && ExpandedBut(links, s, depth, {})
    && (s.queue != [] ==>
          s.queue[0] in depth && QueueOk(s, depth, depth[s.queue[0]]) && Shallow(depth, depth[s.queue[0]]))
  }

  lemma Popped(links: Links, source: DeviceId, s: Search, depth: map<DeviceId, nat>)
    requires Paused(links, source, s, depth) && s.queue != []
    ensures var node := s.queue[0];
            Expanding(links, source, s.(queue := s.queue[1..]), depth, node, Neighbors(links, node))
  {
    var node, rest := s.queue[0], s.(queue := s.queue[1..]);
    assert forall i :: 0 <= i < |rest.queue| ==> rest.queue[i] == s.queue[i + 1];
    assert s.queue == [node] + rest.queue;
  }

  lemma PausesAgain(links: Links, source: DeviceId, s: Search, depth: map<DeviceId, nat>, node: DeviceId)
    requires Expanding(links, source, s, depth, node, {}) && Shallow(depth, depth[node])
    ensures Paused(links, source, s, depth)
  {
    forall v | v in depth && v !in s.queue
      ensures Spread(links, depth, v, {})
    {
      assert v == node || Spread(links, depth, v, {});
    }
    if s.queue != [] {
      assert forall i :: 0 < i < |s.queue| ==> depth[s.queue[0]] <= depth[s.queue[i]];
    }
  }

  lemma {:induction false} DepthsAreDistinct(depth: map<DeviceId, nat>, p: seq<DeviceId>)
    requires forall i :: 0 <= i < |p| ==> p[i] in depth && depth[p[i]] == i
    ensures NoRepeats(p)
  {
    forall i, j | 0 <= i < j < |p|
      ensures p[i] != p[j]
    {
      assert depth[p[i]] == i && depth[p[j]] == j;
    }
  }

  lemma StartSearch(links: Links, source: DeviceId)
    ensures var s := Search({source}, map[], [source]);
            var depth: map<DeviceId, nat> := map[source := 0];
            Paused(links, source, s, depth)
  {
  }

  /** A path is a shortest one. */
  ghost predicate Shortest(links: Links, a: DeviceId, b: DeviceId, p: seq<DeviceId>) {
    PathBetween(links, a, b, p) && forall q :: PathBetween(links, a, b, q) ==> |p| <= |q|
  }

  lemma FoundIsShortest(links: Links, source: DeviceId, before: Search, depth0: map<DeviceId, nat>, node: DeviceId,
                        s: Search, depth: map<DeviceId, nat>, target: DeviceId)
    requires Expanding(links, source, before, depth0, node, Neighbors(links, node)) && target !in before.seen
    requires TreeOk(links, source, s, depth) && target in depth && depth[target] == depth0[node] + 1
    ensures var p := TreePath(links, source, s, depth, target);
            Shortest(links, source, target, p) && NoRepeats(p)
  {
    var p := TreePath(links, source, s, depth, target);
    TreePathsArePaths(links, source, s, depth, target);
    DepthsAreDistinct(depth, p);
    forall q | PathBetween(links, source, target, q)
      ensures |p| <= |q|
    {
      if |q| < |p| {
        ShortPathsAreSeen(links, source, before, depth0, depth0[node], {node}, q);
      }
    }
  }

  class NetworkGraph {
    var devices: map<DeviceId, Device>
    var links: Links

    predicate Valid()
      reads this
    {
      devices.Keys <= links.Keys && Undirected(links)
    }

    constructor ()
      ensures Valid() && devices == map[] && links == map[]
    {
      devices, links := map[], map[];
    }

    /** Re-adding a device replaces it and keeps its links. */
    method AddDevice(device: Device)
      requires Valid()
      modifies this
      ensures Valid()
      ensures devices == old(devices)[device.id := device]
      ensures forall v :: Neighbors(links, v) == old(Neighbors(links, v))
      ensures links.Keys == old(links.Keys) + {device.id}
    {
      devices := devices[device.id := device];
      if device.id !in links {
        links := links[device.id := {}];
      }
    }

    method Link(a: DeviceId, b: DeviceId)
      requires Valid()
      modifies this`links
      ensures Valid()
      ensures forall v, w :: w in Neighbors(links, v) <==>
                w in old(Neighbors(links, v)) || (v == a && w == b) || (v == b && w == a)
      ensures links.Keys == old(links.Keys) + {a, b}
    {
      links := links[a := Neighbors(links, a) + {b}];
      links := links[b := Neighbors(links, b) + {a}];
    }

    /** Breadth-first search: the path both ends inclusive, or none. */
    method HopPath(source: DeviceId, target: DeviceId) returns (r: Option<seq<DeviceId>>)
      requires Valid()
      ensures source !in devices || target !in devices ==> r.None?
      ensures source in devices && target in devices ==> (r.Some? <==> Connected(links, source, target))
      ensures r.Some? ==> Shortest(links, source, target, r.value) && NoRepeats(r.value)
    {
      if source !in devices || target !in devices {
        return None;
      }
      if source == target {
        assert PathBetween(links, source, target, [source]);
        return Some([source]);
      }
      r := SearchFor(links, source, target);
    }

    /** Everything reachable from a foothold, the foothold included. */
    method ReachableFrom(source: DeviceId) returns (seen: set<DeviceId>)
      requires Valid()
      ensures source !in devices ==> seen == {}
      ensures source in devices ==> forall v :: v in seen <==> Connected(links, source, v)
    {
      if source !in devices {
        return {};
      }
      seen := Explore(links, source);
    }
  }

  lemma NeighborsHaveEntries(links: Links, v: DeviceId)
    requires Undirected(links)
    ensures Neighbors(links, v) <= links.Keys
  {
  }

  /** Pop the queue's first vertex and expand it. */
  method ExpandHead(links: Links, source: DeviceId, s: Search, ghost depth: map<DeviceId, nat>,
                    target: Option<DeviceId>)
    returns (s': Search, ghost depth': map<DeviceId, nat>, found: bool)
    requires Undirected(links) && Paused(links, source, s, depth) && s.queue != [] && s.seen <= links.Keys
    requires target.Some? ==> target.value !in s.seen
    ensures found ==> target.Some? && TreeOk(links, source, s', depth') && target.value in depth'
                      && Shortest(links, source, target.value, TreePath(links, source, s', depth', target.value))
                      && NoRepeats(TreePath(links, source, s', depth', target.value))
    ensures !found ==> Paused(links, source, s', depth') && s'.seen <= links.Keys
    ensures !found && target.Some? ==> target.value !in s'.seen
    ensures !found ==> |links.Keys - s'.seen| < |links.Keys - s.seen| || (s'.seen == s.seen && |s'.queue| < |s.queue|)
  {
    var node, rest := s.queue[0], s.(queue := s.queue[1..]);
    Popped(links, source, s, depth);
    s', depth', found := Expand(links, source, rest, depth, node, target);
    if found {
      FoundIsShortest(links, source, rest, depth, node, s', depth', target.value);
    } else {
      PausesAgain(links, source, s', depth', node);
      NeighborsHaveEntries(links, node);
      Shrinks(links, s.seen, s'.seen);
    }
  }

  method SearchFor(links: Links, source: DeviceId, target: DeviceId) returns (r: Option<seq<DeviceId>>)
    requires Undirected(links) && source in links && source != target
    ensures r.Some? <==> Connected(links, source, target)
    ensures r.Some? ==> Shortest(links, source, target, r.value) && NoRepeats(r.value)
  {
    var s := Search({source}, map[], [source]);
    ghost var depth: map<DeviceId, nat> := map[source := 0];
    StartSearch(links, source);
    while s.queue != []
      invariant Paused(links, source, s, depth) && target !in s.seen && s.seen <= links.Keys
      decreases |links.Keys - s.seen|, |s.queue|
    {
      var found;
      s, depth, found := ExpandHead(links, source, s, depth, Some(target));
      if found {
        var path := Reconstruct(links, source, s, depth, target);
        return Some(path);
      }
    }
    SeenIsConnected(links, source, s, depth);
    r := None;
  }

  lemma Shrinks(links: Links, before: set<DeviceId>, after: set<DeviceId>)
    requires before <= after && before <= links.Keys && after <= links.Keys
    ensures |links.Keys - after| <= |links.Keys - before|
    ensures before != after ==> |links.Keys - after| < |links.Keys - before|
  {
    SubsetSize(links.Keys - after, links.Keys - before);
    if before != after {
      var v :| v in after && v !in before;
      assert v in links.Keys - before && v !in links.Keys - after;
    }
  }

  lemma {:induction false} SubsetSize(a: set<DeviceId>, b: set<DeviceId>)
    requires a <= b
    ensures |a| <= |b| && (a != b ==> |a| < |b|)
  {
    assert b == a + (b - a);
  }

  method Explore(links: Links, source: DeviceId) returns (seen: set<DeviceId>)
    requires Undirected(links) && source in links
    ensures forall v :: v in seen <==> Connected(links, source, v)
  {
    var s := Search({source}, map[], [source]);
    ghost var depth: map<DeviceId, nat> := map[source := 0];
    StartSearch(links, source);
    while s.queue != []
      invariant Paused(links, source, s, depth) && s.seen <= links.Keys
      decreases |links.Keys - s.seen|, |s.queue|
    {
      var found;
      s, depth, found := ExpandHead(links, source, s, depth, None);
    }
    seen := s.seen;
    SeenIsConnected(links, source, s, depth);
  }

  lemma SeenIsConnected(links: Links, source: DeviceId, s: Search, depth: map<DeviceId, nat>)
    requires Paused(links, source, s, depth) && s.queue == []
    ensures forall v :: v in s.seen <==> Connected(links, source, v)
  {
    forall v
      ensures v in s.seen <==> Connected(links, source, v)
    {
      if v in s.seen {
        TreePathsArePaths(links, source, s, depth, v);
      }
      if Connected(links, source, v) {
        var p :| PathBetween(links, source, v, p);
        NothingUnseen(links, source, s, depth, p);
      }
    }
  }

  /// The two searches compared

  /** `HopPath` finds a way exactly to what `ReachableFrom` lists, less the ids that were never added. */
  method SearchBoth(graph: NetworkGraph, source: DeviceId, target: DeviceId)
    returns (path: Option<seq<DeviceId>>, seen: set<DeviceId>)
    requires graph.Valid()
    ensures source in graph.devices ==> (target in seen <==> Connected(graph.links, source, target))
    ensures path.Some? <==> target in seen && target in graph.devices
    ensures (path.Some? <==> target in seen) <==> (target in graph.devices || target !in seen)
  {
    path := graph.HopPath(source, target);
    seen := graph.ReachableFrom(source);
  }

  /** One device with a link to an id that was never added: listed as reachable, yet no path leads to it. */
  method LinkedButNeverAdded() returns (path: Option<seq<DeviceId>>, seen: set<DeviceId>)
    ensures path == None && 1 in seen
  {
    var graph := new NetworkGraph();
    graph.AddDevice(Device(0, "foothold"));
    graph.Link(0, 1);
    assert PathBetween(graph.links, 0, 1, [0, 1]);
    path, seen := SearchBoth(graph, 0, 1);
  }
}
