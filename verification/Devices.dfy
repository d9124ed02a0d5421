/** Where copies of a memory object live, and how far apart these places are. */
module Devices {
  import opened Wrappers

  /** The host pointer, LATEST_HOST, or the device with this number. */
  datatype Loc = Host | Dev(n: nat)

  /** Node 0 is the host's node; context is the driver context, if there is one. */
  datatype Device = Device(cpu: bool, node: nat, context: Option<nat>)

  predicate Known(devs: seq<Device>, l: Loc) { l.Host? || l.n < |devs| }

  /** CLDevice::GetDistance */
  function Distance(devs: seq<Device>, n: nat, other: Loc): int
    requires n < |devs| && Known(devs, other)
  {
    var a := devs[n];
    match other
    case Host => if a.node == 0 then (if a.cpu then 1 else 2) else if a.cpu then 4 else 5
    case Dev(k) =>
      var b := devs[k];
      if n == k then 0
      else if a.node == b.node then (if a.cpu && b.cpu then 1 else if a.cpu || b.cpu then 2 else 3)
      else if a.cpu && b.cpu then 4
      else if a.cpu || b.cpu then 5
      else 6
  }

  /** The host pointer counts as a CPU of node 0. */
  function NodeOf(devs: seq<Device>, l: Loc): nat
    requires Known(devs, l)
  {
    match l case Host => 0 case Dev(k) => devs[k].node
  }

  function Accelerators(devs: seq<Device>, l: Loc): nat
    requires Known(devs, l)
  {
    match l case Host => 0 case Dev(k) => if devs[k].cpu then 0 else 1
  }

  /** The table in one line: one step within a node, four between nodes, and one for
      each end that is no CPU; so distances are at most 6, symmetric between devices, and
      zero from a device to itself only. */
  lemma DistanceLaw(devs: seq<Device>, n: nat, other: Loc)
    requires n < |devs| && Known(devs, other)
    ensures Distance(devs, n, other) ==
            if other == Dev(n) then 0
            else (if NodeOf(devs, other) == devs[n].node then 1 else 4) + Accelerators(devs, Dev(n)) + Accelerators(devs, other)
    ensures 0 <= Distance(devs, n, other) <= 6 && (Distance(devs, n, other) == 0 <==> other == Dev(n))
    ensures other.Dev? ==> Distance(devs, other.n, Dev(n)) == Distance(devs, n, other)
  {}

  /** l is in the set, and none in the set is nearer to device n. */
  ghost predicate Nearest(devs: seq<Device>, n: nat, latest: set<Loc>, l: Loc)
    requires n < |devs| && forall k | k in latest :: Known(devs, k)
  {
    l in latest && forall k | k in latest :: Distance(devs, n, l) <= Distance(devs, n, k)
  }

  /** The first of the members of latest, in the order of walk, that no later or earlier
      one is nearer than. */
  function FirstNearest(devs: seq<Device>, n: nat, latest: set<Loc>, walk: seq<Loc>): (r: Option<Loc>)
    requires n < |devs| && forall k | k in latest :: Known(devs, k)
    ensures r.Some? ==> r.value in latest
  {
    if walk == [] then None
    else
      var r, l := FirstNearest(devs, n, latest, walk[..|walk| - 1]), walk[|walk| - 1];
      if l in latest && (r.None? || Distance(devs, n, l) < Distance(devs, n, r.value)) then Some(l) else r
  }

  /** If the walk meets every member, that is a nearest one. */
  lemma {:induction false} FirstIsNearest(devs: seq<Device>, n: nat, latest: set<Loc>, walk: seq<Loc>)
    requires n < |devs| && forall k | k in latest :: Known(devs, k)
    ensures var r := FirstNearest(devs, n, latest, walk);
            && (r.None? ==> forall k | k in latest :: k !in walk)
            && (r.Some? ==> forall k | k in latest && k in walk :: Distance(devs, n, r.value) <= Distance(devs, n, k))
    ensures (forall k | k in latest :: k in walk) && latest != {} ==>
              FirstNearest(devs, n, latest, walk).Some? && Nearest(devs, n, latest, FirstNearest(devs, n, latest, walk).value)
  {
    if walk != [] {
      assert walk == walk[..|walk| - 1] + [walk[|walk| - 1]];
      FirstIsNearest(devs, n, latest, walk[..|walk| - 1]);
    }
  }

  /** CLMem::GetNearestLatest: the set is walked in some fixed order. The bound of 10 it
      starts with never hides a member. */
  method GetNearestLatest(devs: seq<Device>, n: nat, latest: set<Loc>, walk: seq<Loc>) returns (nearest: Option<Loc>)
    requires n < |devs| && (forall k | k in latest :: Known(devs, k)) && forall k | k in latest :: k in walk
    ensures nearest == FirstNearest(devs, n, latest, walk)
    ensures nearest.None? <==> latest == {}
    ensures nearest.Some? ==> Nearest(devs, n, latest, nearest.value)
  {
    nearest := None;
    var min := 10;
    for i := 0 to |walk|
      invariant nearest == FirstNearest(devs, n, latest, walk[..i])
      invariant min == if nearest.None? then 10 else Distance(devs, n, nearest.value)
    {
      assert walk[..i + 1][..i] == walk[..i];
      if walk[i] in latest {
        DistanceLaw(devs, n, walk[i]);
        var distance := Distance(devs, n, walk[i]);
        if distance < min { nearest, min := Some(walk[i]), distance; }
      }
    }
    assert walk[..|walk|] == walk;
    FirstIsNearest(devs, n, latest, walk);
  }

  /** The ways GetCopyPattern knows, by the row of its table. */
  datatype Pattern = CopyIt | WriteFromHost | ReadThenWrite | ClusterCopy | SendReceive

  function CopyPattern(devs: seq<Device>, src: Loc, dst: nat): Pattern
    requires Known(devs, src) && dst < |devs|
  {
    match src
    case Host => WriteFromHost
    case Dev(s) =>
      if devs[s].context == devs[dst].context && devs[dst].context.Some? then CopyIt
      else if s == dst then CopyIt
      else if devs[s].node == devs[dst].node then (if devs[s].node == 0 then ReadThenWrite else ClusterCopy)
      else SendReceive
  }

  /** Each way exactly where it is possible: by one copy on the device itself or within a
      driver context, from the host pointer, over the network between nodes, and within a
      node through host memory on node 0 and by the cluster driver elsewhere. */
  lemma PatternFits(devs: seq<Device>, src: Loc, dst: nat)
    requires Known(devs, src) && dst < |devs|
    ensures var p := CopyPattern(devs, src, dst);
            var shared := src == Dev(dst) || (src.Dev? && devs[src.n].context.Some? && devs[src.n].context == devs[dst].context);
            && (p.CopyIt? <==> shared)
            && (p.WriteFromHost? <==> src == Host)
            && (p.SendReceive? <==> src.Dev? && !shared && devs[src.n].node != devs[dst].node)
            && (p.ReadThenWrite? <==> src.Dev? && !shared && devs[src.n].node == devs[dst].node == 0)
            && (p.ClusterCopy? <==> src.Dev? && !shared && devs[src.n].node == devs[dst].node != 0)
  {}
}
