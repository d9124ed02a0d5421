/** The steps of clones and commands, and whole runs. */
module OneMemory {
  import opened Wrappers
  import opened Devices
  import opened Coherence
  import opened Sequential

  lemma SpliceWhole(d: Data, data: Data)
    requires |data| == |d|
    ensures Splice(d, 0, data) == data
  {}

  /** A write of the whole object. */
  lemma WrittenWhole(devs: seq<Device>, ob: Object, n: nat, data: Data)
    requires ObjectOk(devs, ob) && n < |devs| && |data| == ob.size
    ensures var ob' := Written(devs, ob, n, 0, data);
            && ob'.size == ob.size && ob'.flags == ob.flags && ObjectOk(devs, ob') && ob.latest <= ob'.latest && Dev(n) in ob'.copies
            && (forall l | l in ob'.copies :: l in ob.copies && (ob'.copies[l] == data || (ob'.copies[l] == ob.copies[l] && l != Dev(n))))
            && forall l | l in ob'.latest && l !in ob.latest :: l in ob'.copies && ob'.copies[l] == data
  {
    assert Dev(n) in ob.copies;
    forall l | l in ob.copies ensures Splice(ob.copies[l], 0, data) == data { SpliceWhole(ob.copies[l], data); }
    hide Splice;
  }

  /** The object after half a clone: latest places stay, and only the data of the clone
      comes in. */
  lemma ClonedIs(devs: seq<Device>, ob: Object, clone: Clone, n: nat)
    requires Clonable(devs, ob, clone) && n < |devs|
    ensures var ob' := ClonedObject(devs, ob, clone, n);
            && ob'.size == ob.size && ob'.flags == ob.flags && ObjectOk(devs, ob') && ob.latest <= ob'.latest && Dev(n) in ob'.copies
            && (clone.Ordered? ==> ob' == ob)
            && (clone.Carried? ==> ClonedIn(ob, clone.data, n, ob'))
  {
    hide CopyPattern;
    if clone.Carried? {
      WrittenWhole(devs, ob, n, clone.data);
    }
    hide Written;
  }

  ghost predicate ClonedIn(ob: Object, data: Data, n: nat, ob': Object) {
    && (forall l | l in ob'.copies :: l in ob.copies && (ob'.copies[l] == data || (ob'.copies[l] == ob.copies[l] && l != Dev(n))))
    && forall l | l in ob'.latest && l !in ob.latest :: l in ob'.copies && ob'.copies[l] == data
  }

  lemma CloneTracked(devs: seq<Device>, ob: Object, v: Option<Data>, n: nat, clones: map<nat, Clone>, o: nat)
    requires Tracked(ob, v, Dev(n), clones, o) && o in clones && ObjectOk(devs, ob) && n < |devs|
    requires v.Some? ==> |v.value| == ob.size
    ensures v.Some? && ob.latest != {} && Clonable(devs, ob, clones[o])
    ensures Tracked(ClonedObject(devs, ob, clones[o], n), v, Dev(n), ClonesLeft(clones, o, ob), o)
  {
    ClonedIs(devs, ob, clones[o], n);
    hide ClonedObject;
  }

  lemma OtherTracked(ob: Object, v: Option<Data>, d: Loc, clones: map<nat, Clone>, clones': map<nat, Clone>, o: nat)
    requires Tracked(ob, v, d, clones, o) && (o in clones <==> o in clones') && (o in clones ==> clones'[o] == clones[o])
    ensures Tracked(ob, v, d, clones', o)
  {}

  predicate LatestKept(ob: Object, ob': Object) { ob.latest <= ob'.latest && (ob.latest == {} ==> ob'.latest == {}) }

  lemma PreparedKept(objs: Objects, q: Memory, c: Command, h: Head, objs': Objects, h': Head)
    requires h.Resolving? && (forall o :: o in q.mem <==> o in objs) && Names(objs, c.op) && Prepared(objs, q, c, h)
    requires (forall o :: o in objs' <==> o in objs) && forall o | o in objs :: LatestKept(objs[o], objs'[o]) && objs'[o].size == objs[o].size
    requires h'.Resolving? && h'.source == h.source && h'.fetch == h.fetch && h'.clones.Keys <= h.clones.Keys
    requires c.op.Copy? ==> SourceSame(objs[c.op.src], objs'[c.op.src], h.source)
    ensures Names(objs', c.op) && Prepared(objs', q, c, h')
  {}

  lemma ClonesLeftOther(clones: map<nat, Clone>, o: nat, ob: Object, k: nat)
    requires o in clones && (clones[o].Ordered? ==> clones[o].from in ob.copies)
    ensures var left := ClonesLeft(clones, o, ob);
            left.Keys <= clones.Keys && (k != o ==> (k in clones <==> k in left) && (k in clones ==> left[k] == clones[k]))
  {}

  /** Half a clone keeps every object tracked. */
  lemma CloneAllTracked(devs: seq<Device>, objs: Objects, q: Memory, n: nat, clones: map<nat, Clone>, o: nat)
    requires AllTracked(objs, q, Dev(n), clones) && ObjectsOk(devs, objs) && n < |devs| && o in clones && o in objs && o in q.mem
    requires q.mem[o].Some? ==> |q.mem[o].value| == objs[o].size
    ensures Clonable(devs, objs[o], clones[o]) && (clones[o].Ordered? ==> clones[o].from in objs[o].copies)
    ensures var objs' := objs[o := ClonedObject(devs, objs[o], clones[o], n)];
            && AllTracked(objs', q, Dev(n), ClonesLeft(clones, o, objs[o])) && ObjectsOk(devs, objs') && SameSizes(objs, objs')
            && forall k | k in objs :: LatestKept(objs[k], objs'[k])
  {
    hide *;
    TrackedAt(objs, q, Dev(n), clones, o);
    ObjectAt(devs, objs, o);
    CloneTracked(devs, objs[o], q.mem[o], n, clones, o);
    ClonedIs(devs, objs[o], clones[o], n);
    ClonableFrom(devs, objs[o], clones[o]);
    var objs', left := objs[o := ClonedObject(devs, objs[o], clones[o], n)], ClonesLeft(clones, o, objs[o]);
    KeysOf(objs, q, Dev(n), clones);
    forall k | k in objs' ensures k in q.mem && Tracked(objs'[k], q.mem[k], Dev(n), left, k) {
      if k != o {
        TrackedAt(objs, q, Dev(n), clones, k);
        ClonesLeftOther(clones, o, objs[o], k);
        OtherTracked(objs[k], q.mem[k], Dev(n), clones, left, k);
      }
    }
    AllTrackedFrom(objs', q, Dev(n), left);
    OneCloned(devs, objs, o, objs'[o]);
  }

  lemma ClonableFrom(devs: seq<Device>, ob: Object, clone: Clone)
    requires Clonable(devs, ob, clone)
    ensures clone.Ordered? ==> clone.from in ob.copies
  {}

  lemma OneCloned(devs: seq<Device>, objs: Objects, o: nat, ob: Object)
    requires ObjectsOk(devs, objs) && o in objs && ObjectOk(devs, ob) && ob.size == objs[o].size && ob.flags == objs[o].flags
    requires objs[o].latest != {} && objs[o].latest <= ob.latest
    ensures ObjectsOk(devs, objs[o := ob]) && SameSizes(objs, objs[o := ob]) && forall k | k in objs :: LatestKept(objs[k], objs[o := ob][k])
  {
    hide ObjectOk;
  }

  predicate SourceSame(ob: Object, ob': Object, source: Loc) {
    source in ob.copies && source in ob'.copies && ob'.copies[source] == ob.copies[source]
  }

  /** What a copy reads stays as it is. */
  lemma SourceStays(devs: seq<Device>, objs: Objects, q: Memory, c: Command, h: Head, o: nat)
    requires h.Resolving? && (forall k :: k in q.mem <==> k in objs) && Names(objs, c.op) && Prepared(objs, q, c, h) && o in h.clones && o in objs
    requires c.dev < |devs| && Clonable(devs, objs[o], h.clones[o]) && Tracked(objs[o], q.mem[o], Dev(c.dev), h.clones, o)
    ensures c.op.Copy? ==> SourceSame(objs[c.op.src], objs[o := ClonedObject(devs, objs[o], h.clones[o], c.dev)][c.op.src], h.source)
  {
    ClonedIs(devs, objs[o], h.clones[o], c.dev);
    hide ClonedObject;
    if c.op.Copy? { SourceKeeps(objs[c.op.src], q.mem[c.op.src], c, h); }
  }

  lemma SourceKeeps(ob: Object, v: Option<Data>, c: Command, h: Head)
    requires c.op.Copy? && h.Resolving? && SourceOk(ob, v, Dev(c.dev), c.op.from, c.op.count, h.fetch, h.source)
    ensures h.source in ob.copies && (v.Some? ==> ob.copies[h.source] == v.value)
  {}

  /** Half a clone. */
  lemma CloneKeeps(devs: seq<Device>, m: Machine, q: Memory, o: nat)
    requires Waiting(devs, m, q) && m.queue != [] && o in m.head.clones
    ensures Cloning(devs, m, o) && Waiting(devs, CloneStep(devs, m, o), q)
  {
    hide *;
    WaitingParts(devs, m, q);
    CloneDomain(devs, m, q, o);
    var c := m.queue[0];
    CloneAllTracked(devs, m.objs, q, c.dev, m.head.clones, o);
    CloningFrom(devs, m, o);
    var objs', left := m.objs[o := ClonedObject(devs, m.objs[o], m.head.clones[o], c.dev)], ClonesLeft(m.head.clones, o, m.objs[o]);
    CloneStepIs(devs, m, o);
    ClonesLeftOther(m.head.clones, o, m.objs[o], o);
    MatchedKept(devs, m, q, CloneStep(devs, m, o));
    NamesKept(m.objs, objs', c.op);
    if m.head.resolved {
      TrackedAt(m.objs, q, Dev(c.dev), m.head.clones, o);
      SourceStays(devs, m.objs, q, c, m.head, o);
      SizesOf(m.objs, objs');
      PreparedKept(m.objs, q, c, m.head, objs', m.head.(clones := left));
    }
    WaitingFrom(devs, CloneStep(devs, m, o), q);
  }

  lemma SizesOf(objs: Objects, objs': Objects)
    requires SameSizes(objs, objs')
    ensures (forall o :: o in objs' <==> o in objs) && forall o | o in objs :: objs'[o].size == objs[o].size
  {}

  lemma CloningFrom(devs: seq<Device>, m: Machine, o: nat)
    requires m.queue != [] && m.head.Resolving? && o in m.head.clones && o in m.objs && m.queue[0].dev < |devs|
    requires Clonable(devs, m.objs[o], m.head.clones[o])
    ensures Cloning(devs, m, o)
  {}

  lemma CloneDomain(devs: seq<Device>, m: Machine, q: Memory, o: nat)
    requires Waiting(devs, m, q) && m.queue != [] && o in m.head.clones
    ensures o in m.objs && o in q.mem && (q.mem[o].Some? ==> |q.mem[o].value| == m.objs[o].size)
    ensures !m.head.resolved ==> m.head.refusals > 0
    ensures forall k | k in m.head.clones :: k in m.objs
  {
    hide AllTracked;
    hide Ok;
    hide Prepared;
  }

  lemma CloneStepIs(devs: seq<Device>, m: Machine, o: nat)
    requires Cloning(devs, m, o)
    ensures m.queue != [] && m.head.Resolving? && o in m.head.clones && o in m.objs && m.queue[0].dev < |devs|
    ensures Clonable(devs, m.objs[o], m.head.clones[o]) && (m.head.clones[o].Ordered? ==> m.head.clones[o].from in m.objs[o].copies)
    ensures var n := CloneStep(devs, m, o);
            && n.queue == m.queue && n.log == m.log
            && n.objs == m.objs[o := ClonedObject(devs, m.objs[o], m.head.clones[o], m.queue[0].dev)]
            && n.head == m.head.(clones := ClonesLeft(m.head.clones, o, m.objs[o]))
  {
    hide ClonedObject;
  }

  lemma NamesKept(objs: Objects, objs': Objects, op: Op)
    requires Names(objs, op) && forall k :: k in objs' <==> k in objs
    ensures Names(objs', op)
  {}

  lemma WaitingFrom(devs: seq<Device>, m: Machine, q: Memory)
    requires Matched(devs, m, q) && m.head.Resolving? && Known(devs, m.head.source) && m.queue != []
    requires AllTracked(m.objs, q, Dev(m.queue[0].dev), m.head.clones) && (forall o | o in m.head.clones :: o in m.objs)
    requires (forall o :: o in q.mem <==> o in m.objs) && Names(m.objs, m.queue[0].op)
    requires if m.head.resolved then Prepared(m.objs, q, m.queue[0], m.head) && (!m.queue[0].op.Copy? ==> m.head.fetch == NoFetch)
             else m.head.fetch == NoFetch && m.head.refusals > 0
    ensures Waiting(devs, m, q)
  {
    hide Matched;
    hide AllTracked;
    hide Prepared;
    hide Names;
  }

  /** The read that feeds a copy. */
  lemma FetchKeeps(devs: seq<Device>, m: Machine, q: Memory)
    requires Inv(devs, m, q) && m.queue != [] && m.head.fetch.Wanted?
    ensures m.queue[0].op.Copy? && m.queue[0].op.src in m.objs && m.head.fetch.from in m.objs[m.queue[0].op.src].copies
    ensures m.queue[0].op.from + m.queue[0].op.count <= |m.objs[m.queue[0].op.src].copies[m.head.fetch.from]|
    ensures Inv(devs, FetchStep(m), q)
  {
    hide ObjectOk;
    hide CommandOk;
    hide AllTracked;
    hide InUse;
    if Waiting(devs, m, q) {
      assert m.head.resolved;
      MatchedKept(devs, m, q, FetchStep(m));
    } else {
      MatchedKept(devs, m, q, FetchStep(m));
    }
  }

  /** Machine and memory after a command: every object tracked, with nothing on its way. */
  ghost predicate Settled(devs: seq<Device>, objs: Objects, q: Memory) {
    && (forall o :: o in q.mem <==> o in objs)
    && forall o | o in objs :: ObjectSettled(devs, objs[o], q.mem[o], o)
  }

  ghost predicate ObjectSettled(devs: seq<Device>, ob: Object, v: Option<Data>, o: nat) {
    ObjectOk(devs, ob) && Tracked(ob, v, Host, map[], o) && (v.Some? ==> |v.value| == ob.size)
  }

  lemma RunningParts(devs: seq<Device>, m: Machine, q: Memory)
    requires Running(devs, m, q)
    ensures Ok(devs, m) && ObjectsOk(devs, m.objs) && m.queue != [] && m.head.Submitted? && m.queue[0].dev < |devs| && Names(m.objs, m.queue[0].op)
    ensures CommandOk(devs, m.objs, m.queue[0]) && (forall o :: o in q.mem <==> o in m.objs) && q.log == m.log && Known(devs, m.head.source)
    ensures Supplied(m.objs, q, m.queue[0], m.head)
    ensures !m.head.fetch.Wanted? ==> Executable(devs, m)
  {
    assert CommandOk(devs, m.objs, m.queue[0]);
    CommandNames(devs, m.objs, m.queue[0]);
    hide InUse;
    hide CommandOk;
    hide ObjectOk;
    hide Overwrites;
  }

  lemma InUseParts(devs: seq<Device>, m: Machine, q: Memory, o: nat)
    requires Running(devs, m, q) && o in m.objs
    ensures m.queue != [] && Names(m.objs, m.queue[0].op)
    ensures o in q.mem && ObjectOk(devs, m.objs[o]) && (q.mem[o].Some? ==> |q.mem[o].value| == m.objs[o].size)
    ensures InUse(m.objs[o], q.mem[o], Dev(m.queue[0].dev), o in Claimed(m.queue[0].op), Overwrites(m.objs, m.queue[0].op, o))
  {
    hide InUse;
    hide CommandOk;
    hide ObjectOk;
    hide Overwrites;
    hide Supplied;
    hide Names;
  }

  /** An object the command does not claim. */
  lemma UnclaimedSettled(devs: seq<Device>, ob: Object, v: Option<Data>, d: Loc, o: nat)
    requires ObjectOk(devs, ob) && (v.Some? ==> |v.value| == ob.size) && InUse(ob, v, d, false, false)
    ensures ObjectSettled(devs, ob, v, o)
  {}

  /** What a kernel finds on its device is what the one memory holds. */
  lemma KernelInputs(devs: seq<Device>, m: Machine, q: Memory)
    requires Running(devs, m, q) && m.queue[0].op.Kernel?
    ensures var args, d := m.queue[0].op.args, Dev(m.queue[0].dev);
            && (forall a | a in args :: a in m.objs && a in q.mem && d in m.objs[a].copies)
            && Contents(m.objs, args, d) == Values(q, args, Contents(m.objs, args, d))
            && Fits(m.objs, args, Contents(m.objs, args, d))
  {
    hide *;
    RunningParts(devs, m, q);
    var args, d := m.queue[0].op.args, Dev(m.queue[0].dev);
    forall a | a in args
      ensures a in m.objs && a in q.mem && d in m.objs[a].copies && |m.objs[a].copies[d]| == m.objs[a].size
      ensures q.mem[a].Some? ==> m.objs[a].copies[d] == q.mem[a].value
    {
      ArgumentFound(devs, m, q, a);
    }
    InputsSame(m.objs, q, args, d);
  }

  lemma ArgumentFound(devs: seq<Device>, m: Machine, q: Memory, a: nat)
    requires Running(devs, m, q) && m.queue[0].op.Kernel? && a in m.queue[0].op.args
    ensures var d := Dev(m.queue[0].dev);
            && a in m.objs && a in q.mem && d in m.objs[a].copies && |m.objs[a].copies[d]| == m.objs[a].size
            && (q.mem[a].Some? ==> m.objs[a].copies[d] == q.mem[a].value)
            && d in m.objs[a].latest && (m.objs[a].latest == {d} || Preserves(m.objs, m.queue[0].op.args, m.queue[0].op.run, a))
  {
    RunningParts(devs, m, q);
    hide CommandOk;
    hide Running;
    hide ObjectsOk;
    assert a in Touched(m.queue[0].op);
    InUseParts(devs, m, q, a);
  }

  lemma InputsSame(objs: Objects, q: Memory, args: seq<nat>, d: Loc)
    requires forall a | a in args :: a in objs && a in q.mem && d in objs[a].copies && |objs[a].copies[d]| == objs[a].size
    requires forall a | a in args && q.mem[a].Some? :: objs[a].copies[d] == q.mem[a].value
    ensures Contents(objs, args, d) == Values(q, args, Contents(objs, args, d)) && Fits(objs, args, Contents(objs, args, d))
  {
    var ins := Contents(objs, args, d);
    var vs := Values(q, args, ins);
    forall a | a in ins ensures a in vs && vs[a] == ins[a] {}
    assert vs.Keys == ins.Keys;
  }

  lemma ArgumentSettled(devs: seq<Device>, ob: Object, v: Option<Data>, d: Loc, out: Data, o: nat)
    requires ObjectOk(devs, ob) && d in ob.copies && |out| == ob.size && InUse(ob, v, d, true, false) && d in ob.latest
    requires ob.latest == {d} || out == ob.copies[d]
    ensures ObjectSettled(devs, ob.(copies := ob.copies[d := out]), Some(out), o)
  {}

  lemma ObjectsSettled(devs: seq<Device>, objs: Objects, q: Memory)
    requires (forall o :: o in q.mem <==> o in objs) && forall o | o in objs :: ObjectSettled(devs, objs[o], q.mem[o], o)
    ensures Settled(devs, objs, q)
  {
    hide ObjectSettled;
  }

  lemma KernelExecutes(devs: seq<Device>, m: Machine, q: Memory, found: map<nat, Data>)
    requires Executable(devs, m) && m.queue[0].op.Kernel? && (forall o :: o in q.mem <==> o in m.objs) && Findable(m)
    requires found == Contents(m.objs, m.queue[0].op.args, Dev(m.queue[0].dev)) && found == Values(q, m.queue[0].op.args, found)
    requires Fits(m.objs, m.queue[0].op.args, m.queue[0].op.run(found))
    ensures found == Found(m) && Performs(q, m.queue[0].op, found)
    ensures var n, q', outs := Execute(devs, m), Apply(q, m.queue[0].op, found), m.queue[0].op.run(found);
            && n.log == m.log + [found] && q'.log == q.log + [found] && n.queue == m.queue[1..] && n.head == FRESH
            && (forall o :: o in n.objs <==> o in m.objs) && (forall o :: o in q'.mem <==> o in q.mem)
            && (forall o | o in m.objs && o !in m.queue[0].op.args :: n.objs[o] == m.objs[o] && q'.mem[o] == q.mem[o])
            && forall o | o in m.queue[0].op.args :: o in outs && q'.mem[o] == Some(outs[o]) &&
                 n.objs[o] == m.objs[o].(copies := m.objs[o].copies[Dev(m.queue[0].dev) := outs[o]])
  {
    hide Ok;
  }

  /** The command runs on the machine and in the one memory, with the same result. */
  ghost predicate Executes(devs: seq<Device>, m: Machine, q: Memory) {
    && Executable(devs, m) && Findable(m) && Performs(q, m.queue[0].op, Found(m))
    && Outcome(devs, m, q, Execute(devs, m), Apply(q, m.queue[0].op, Found(m)))
  }

  lemma KernelSettles(devs: seq<Device>, m: Machine, q: Memory)
    requires Running(devs, m, q) && m.queue[0].op.Kernel? && !m.head.fetch.Wanted?
    ensures Executes(devs, m, q)
  {
    hide *;
    RunningParts(devs, m, q);
    var c := m.queue[0];
    KernelTouches(c.op);
    KernelInputs(devs, m, q);
    FindableAll(devs, m, q);
    var found := Contents(m.objs, c.op.args, Dev(c.dev));
    KernelOuts(devs, m.objs, c, found);
    KernelExecutes(devs, m, q, found);
    var n, q' := Execute(devs, m), Apply(q, c.op, found);
    forall o | o in m.objs ensures ObjectSettled(devs, n.objs[o], q'.mem[o], o) && n.objs[o].size == m.objs[o].size && n.objs[o].flags == m.objs[o].flags {
      if o in c.op.args {
        ArgumentFound(devs, m, q, o);
        KernelObject(devs, m, q, o, c.op.run(found)[o], found);
      } else {
        OtherObject(devs, m, q, o);
      }
    }
    ObjectsSettled(devs, n.objs, q');
    OutcomeFrom(devs, m, q, n, q');
    ExecutesFrom(devs, m, q);
  }

  lemma ExecutesFrom(devs: seq<Device>, m: Machine, q: Memory)
    requires Executable(devs, m) && Findable(m) && Performs(q, m.queue[0].op, Found(m))
    requires Outcome(devs, m, q, Execute(devs, m), Apply(q, m.queue[0].op, Found(m)))
    ensures Executes(devs, m, q)
  {
    hide Outcome;
  }

  lemma FindableAll(devs: seq<Device>, m: Machine, q: Memory)
    requires Running(devs, m, q)
    ensures Findable(m) && forall a | a in Touched(m.queue[0].op) :: a in m.objs && a in q.mem
  {
    RunningParts(devs, m, q);
    hide Running;
    hide Ok;
    hide CommandOk;
    hide ObjectsOk;
    hide InUse;
    forall a | a in Touched(m.queue[0].op) ensures a in m.objs && a in q.mem && Dev(m.queue[0].dev) in m.objs[a].copies {
      InUseParts(devs, m, q, a);
    }
  }

  lemma KernelTouches(op: Op)
    requires op.Kernel?
    ensures Touched(op) == op.args && Claimed(op) == op.args
  {}

  lemma KernelOuts(devs: seq<Device>, objs: Objects, c: Command, found: map<nat, Data>)
    requires CommandOk(devs, objs, c) && c.op.Kernel? && Fits(objs, c.op.args, found)
    ensures var outs := c.op.run(found);
            && Fits(objs, c.op.args, outs) && (forall a :: a in outs <==> a in c.op.args)
            && forall a | a in c.op.args :: a in objs && a in found && |outs[a]| == objs[a].size && (Preserves(objs, c.op.args, c.op.run, a) ==> outs[a] == found[a])
  {}

  lemma KernelObject(devs: seq<Device>, m: Machine, q: Memory, o: nat, out: Data, found: map<nat, Data>)
    requires Running(devs, m, q) && m.queue[0].op.Kernel? && o in m.queue[0].op.args && o in m.objs && |out| == m.objs[o].size && o in found
    requires Dev(m.queue[0].dev) in m.objs[o].copies && found[o] == m.objs[o].copies[Dev(m.queue[0].dev)]
    requires m.objs[o].latest == {Dev(m.queue[0].dev)} || out == found[o]
    ensures ObjectSettled(devs, m.objs[o].(copies := m.objs[o].copies[Dev(m.queue[0].dev) := out]), Some(out), o)
  {
    hide Running;
    hide ObjectSettled;
    hide ObjectOk;
    hide CommandOk;
    hide Supplied;
    hide Ok;
    hide ObjectsOk;
    hide InUse;
    hide Executable;
    RunningParts(devs, m, q);
    ArgumentFound(devs, m, q, o);
    InUseParts(devs, m, q, o);
    ArgumentSettled(devs, m.objs[o], q.mem[o], Dev(m.queue[0].dev), out, o);
  }

  /** An object the command leaves alone. */
  lemma OtherObject(devs: seq<Device>, m: Machine, q: Memory, o: nat)
    requires Running(devs, m, q) && o in m.objs && o !in Claimed(m.queue[0].op)
    ensures o in q.mem && ObjectSettled(devs, m.objs[o], q.mem[o], o)
  {
    hide Running;
    hide ObjectSettled;
    hide ObjectOk;
    hide CommandOk;
    hide Supplied;
    hide Ok;
    hide ObjectsOk;
    hide InUse;
    hide Executable;
    RunningParts(devs, m, q);
    InUseParts(devs, m, q, o);
    NotOverwritten(m.objs, m.queue[0].op, o);
    UnclaimedSettled(devs, m.objs[o], q.mem[o], Dev(m.queue[0].dev), o);
  }

  lemma NotOverwritten(objs: Objects, op: Op, o: nat)
    requires Names(objs, op) && o !in Claimed(op)
    ensures !Overwrites(objs, op, o)
  {}

  lemma OutcomeFrom(devs: seq<Device>, m: Machine, q: Memory, n: Machine, q': Memory)
    requires m.queue != [] && n.queue == m.queue[1..] && n.head == FRESH && Settled(devs, n.objs, q') && n.log == q'.log
    requires (forall o :: o in n.objs <==> o in m.objs) && forall o | o in m.objs :: n.objs[o].size == m.objs[o].size && n.objs[o].flags == m.objs[o].flags
    ensures Outcome(devs, m, q, n, q')
  {
    hide Settled;
  }

  /** The command has run on the machine and in the one memory, with the same result. */
  ghost predicate Outcome(devs: seq<Device>, m: Machine, q: Memory, n: Machine, q': Memory) {
    && m.queue != [] && n.queue == m.queue[1..] && n.head == FRESH
    && Settled(devs, n.objs, q') && SameSizes(m.objs, n.objs) && n.log == q'.log
  }

  /** Contents before a write, as the one memory has them. */
  function Before(v: Option<Data>, ob: Object, d: Loc): Data
    requires d in ob.copies
  {
    match v case None => ob.copies[d] case Some(x) => x
  }

  /** A write to the device that alone is latest. */
  lemma DirectSettled(devs: seq<Device>, ob: Object, v: Option<Data>, d: Loc, off: nat, data: Data, overwritten: bool, o: nat)
    requires ObjectOk(devs, ob) && d in ob.copies && (v.Some? ==> |v.value| == ob.size) && ob.latest == {d}
    requires InUse(ob, v, d, true, overwritten) && off + |data| <= ob.size && (overwritten ==> off == 0 && |data| == ob.size)
    ensures var data' := Splice(Before(v, ob, d), off, data);
            Splice(ob.copies[d], off, data) == data' && ObjectSettled(devs, ob.(copies := ob.copies[d := data']), Some(data'), o)
  {
    if overwritten {
      SpliceWhole(ob.copies[d], data);
      SpliceWhole(Before(v, ob, d), data);
    } else {
      assert d in ob.latest;
    }
  }

  /** A write to all devices, of the whole object or where all hold the same. */
  lemma SpreadSettled(devs: seq<Device>, ob: Object, v: Option<Data>, d: Loc, off: nat, data: Data, overwritten: bool, o: nat)
    requires ObjectOk(devs, ob) && d in ob.copies && (v.Some? ==> |v.value| == ob.size) && ob.latest == {d} && d.Dev? && off + |data| <= ob.size
    requires InUse(ob, v, d, true, overwritten)
    requires if overwritten then off == 0 && |data| == ob.size else Agree(ob, d)
    ensures ObjectSettled(devs, Spread(devs, ob, off, data), Some(Splice(Before(v, ob, d), off, data)), o)
  {
    var ob', data' := Spread(devs, ob, off, data), Splice(Before(v, ob, d), off, data);
    forall l | l in ob.copies && l.Dev? ensures ob'.copies[l] == data' {
      if overwritten {
        SpliceWhole(ob.copies[l], data);
        SpliceWhole(Before(v, ob, d), data);
      } else {
        assert d in ob.latest;
      }
    }
    hide Splice;
  }

  lemma WrittenSettled(devs: seq<Device>, ob: Object, v: Option<Data>, n: nat, off: nat, data: Data, overwritten: bool, o: nat)
    requires ObjectOk(devs, ob) && n < |devs| && (v.Some? ==> |v.value| == ob.size) && ob.latest == {Dev(n)}
    requires InUse(ob, v, Dev(n), true, overwritten) && off + |data| <= ob.size && (overwritten <==> off == 0 && |data| == ob.size)
    requires ob.flags.OnlyReadOnly() ==> overwritten || Agree(ob, Dev(n))
    ensures Dev(n) in ob.copies
    ensures var data' := Splice(Before(v, ob, Dev(n)), off, data);
            ObjectSettled(devs, Written(devs, ob, n, off, data), Some(data'), o)
    ensures Written(devs, ob, n, off, data).size == ob.size && Written(devs, ob, n, off, data).flags == ob.flags
  {
    assert Dev(n) in ob.copies;
    hide ObjectSettled;
    hide InUse;
    if ob.flags.OnlyReadOnly() {
      SpreadSettled(devs, ob, v, Dev(n), off, data, overwritten, o);
    } else {
      DirectSettled(devs, ob, v, Dev(n), off, data, overwritten, o);
    }
  }

  /** A command that changes object t only. */
  lemma OneObject(devs: seq<Device>, m: Machine, q: Memory, n: Machine, q': Memory, t: nat)
    requires Running(devs, m, q) && t in m.objs && Claimed(m.queue[0].op) == [t]
    requires n.queue == m.queue[1..] && n.head == FRESH && n.log == q'.log
    requires (forall o :: o in n.objs <==> o in m.objs) && (forall o :: o in q'.mem <==> o in q.mem)
    requires forall o | o in m.objs && o != t :: n.objs[o] == m.objs[o] && (o in q.mem && o in q'.mem ==> q'.mem[o] == q.mem[o])
    requires t in q'.mem && ObjectSettled(devs, n.objs[t], q'.mem[t], t) && n.objs[t].size == m.objs[t].size && n.objs[t].flags == m.objs[t].flags
    ensures Outcome(devs, m, q, n, q')
  {
    hide *;
    RunningParts(devs, m, q);
    forall o | o in n.objs ensures o in q'.mem && ObjectSettled(devs, n.objs[o], q'.mem[o], o) {
      if o != t { OtherObject(devs, m, q, o); }
    }
    ObjectsSettled(devs, n.objs, q');
    OutcomeFrom(devs, m, q, n, q');
  }

  /** What the one memory takes object o to hold. */
  lemma FoundIs(devs: seq<Device>, m: Machine, q: Memory, o: nat)
    requires Running(devs, m, q) && o in Touched(m.queue[0].op)
    ensures Findable(m) && o in m.objs && o in q.mem && o in Found(m) && Dev(m.queue[0].dev) in m.objs[o].copies
    ensures Value(q, o, Found(m)) == Before(q.mem[o], m.objs[o], Dev(m.queue[0].dev))
    ensures |Value(q, o, Found(m))| == m.objs[o].size
  {
    hide *;
    RunningParts(devs, m, q);
    FindableAll(devs, m, q);
    InUseParts(devs, m, q, o);
    FoundValue(devs, m, q, o);
  }

  lemma FoundValue(devs: seq<Device>, m: Machine, q: Memory, o: nat)
    requires Findable(m) && o in Touched(m.queue[0].op) && o in m.objs && o in q.mem && ObjectOk(devs, m.objs[o])
    requires q.mem[o].Some? ==> |q.mem[o].value| == m.objs[o].size
    ensures o in Found(m) && Dev(m.queue[0].dev) in m.objs[o].copies
    ensures Value(q, o, Found(m)) == Before(q.mem[o], m.objs[o], Dev(m.queue[0].dev))
    ensures |Value(q, o, Found(m))| == m.objs[o].size
  {
    hide Touched;
  }

  lemma ReadFound(ob: Object, v: Option<Data>, d: Loc, source: Loc)
    requires InUse(ob, v, d, true, false) && source in ob.latest && source in ob.copies && d in ob.copies && (v.None? ==> source == d)
    ensures ob.copies[source] == Before(v, ob, d)
  {}

  lemma ReadSettled(devs: seq<Device>, ob: Object, v: Option<Data>, d: Loc, o: nat)
    requires ObjectOk(devs, ob) && InUse(ob, v, d, true, false) && ob.latest != {} && d in ob.copies && (v.Some? ==> |v.value| == ob.size)
    ensures ObjectSettled(devs, ob, Some(Before(v, ob, d)), o)
  {}

  lemma ReadExecutes(devs: seq<Device>, m: Machine, q: Memory)
    requires Executable(devs, m) && m.queue[0].op.Read? && Findable(m) && m.queue[0].op.obj in q.mem && m.queue[0].op.obj in Found(m)
    requires var c := m.queue[0].op;
             && c.obj in m.objs && m.head.source in m.objs[c.obj].copies && c.off + c.count <= |m.objs[c.obj].copies[m.head.source]|
             && m.objs[c.obj].copies[m.head.source] == Value(q, c.obj, Found(m)) && q.log == m.log
    ensures Performs(q, m.queue[0].op, Found(m))
    ensures var n, q', o := Execute(devs, m), Apply(q, m.queue[0].op, Found(m)), m.queue[0].op.obj;
            && n.log == q'.log && n.queue == m.queue[1..] && n.head == FRESH && n.objs == m.objs
            && q'.mem == q.mem[o := Some(Value(q, o, Found(m)))]
  {
    hide Ok;
  }

  lemma SuppliedRead(objs: Objects, q: Memory, c: Command, h: Head)
    requires h.Submitted? && (forall o :: o in q.mem <==> o in objs) && Names(objs, c.op) && Supplied(objs, q, c, h) && c.op.Read?
    ensures Touched(c.op) == [c.op.obj] == Claimed(c.op) && !Overwrites(objs, c.op, c.op.obj)
    ensures c.op.obj in objs && h.source in objs[c.op.obj].latest && (q.mem[c.op.obj].None? ==> h.source == Dev(c.dev))
  {}

  lemma ReadSettles(devs: seq<Device>, m: Machine, q: Memory)
    requires Running(devs, m, q) && m.queue[0].op.Read? && !m.head.fetch.Wanted?
    ensures Executes(devs, m, q)
  {
    hide *;
    RunningParts(devs, m, q);
    var c, h := m.queue[0], m.head;
    var o, d := c.op.obj, Dev(c.dev);
    SuppliedRead(m.objs, q, c, h);
    FoundIs(devs, m, q, o);
    InUseParts(devs, m, q, o);
    RangesOk(devs, m.objs, c);
    LatestHeld(devs, m.objs[o], h.source);
    ReadFound(m.objs[o], q.mem[o], d, h.source);
    ReadSettled(devs, m.objs[o], q.mem[o], d, o);
    ReadExecutes(devs, m, q);
    OneObject(devs, m, q, Execute(devs, m), Apply(q, c.op, Found(m)), o);
    ExecutesFrom(devs, m, q);
  }

  lemma LatestHeld(devs: seq<Device>, ob: Object, l: Loc)
    requires ObjectOk(devs, ob) && l in ob.latest
    ensures l in ob.copies
  {}

  /** A command that writes: its object is latest on its device alone. */
  lemma SuppliedWrite(objs: Objects, q: Memory, c: Command, h: Head)
    requires h.Submitted? && (forall o :: o in q.mem <==> o in objs) && Names(objs, c.op) && Supplied(objs, q, c, h)
    requires c.op.Write? || c.op.Fill?
    ensures Touched(c.op) == [c.op.obj] == Claimed(c.op) && c.op.obj in objs && objs[c.op.obj].latest == {Dev(c.dev)}
    ensures Overwrites(objs, c.op, c.op.obj) <==> c.op.off == 0 && |c.op.data| == objs[c.op.obj].size
    ensures c.op.Write? && objs[c.op.obj].flags.OnlyReadOnly() ==> Overwrites(objs, c.op, c.op.obj) || Agree(objs[c.op.obj], Dev(c.dev))
  {}

  lemma WriteExecutes(devs: seq<Device>, m: Machine, q: Memory)
    requires Executable(devs, m) && m.queue[0].op.Write? && Findable(m) && m.queue[0].op.obj in q.mem && m.queue[0].op.obj in Found(m)
    requires var c := m.queue[0].op;
             c.obj in m.objs && ObjectOk(devs, m.objs[c.obj]) && m.queue[0].dev < |devs| && c.off + |c.data| <= m.objs[c.obj].size
    requires m.queue[0].op.off + |m.queue[0].op.data| <= |Value(q, m.queue[0].op.obj, Found(m))| && q.log == m.log
    ensures Performs(q, m.queue[0].op, Found(m))
    ensures var n, q', c := Execute(devs, m), Apply(q, m.queue[0].op, Found(m)), m.queue[0].op;
            && n.log == q'.log && n.queue == m.queue[1..] && n.head == FRESH
            && n.objs == m.objs[c.obj := Written(devs, m.objs[c.obj], m.queue[0].dev, c.off, c.data)]
            && q'.mem == q.mem[c.obj := Some(Splice(Value(q, c.obj, Found(m)), c.off, c.data))]
  {
    hide Ok;
  }

  lemma WriteSettles(devs: seq<Device>, m: Machine, q: Memory)
    requires Running(devs, m, q) && m.queue[0].op.Write? && !m.head.fetch.Wanted?
    ensures Executes(devs, m, q)
  {
    hide *;
    RunningParts(devs, m, q);
    var c := m.queue[0];
    var o, d := c.op.obj, Dev(c.dev);
    SuppliedWrite(m.objs, q, c, m.head);
    FoundIs(devs, m, q, o);
    InUseParts(devs, m, q, o);
    RangesOk(devs, m.objs, c);
    WrittenSettled(devs, m.objs[o], q.mem[o], c.dev, c.op.off, c.op.data, Overwrites(m.objs, c.op, o), o);
    WriteExecutes(devs, m, q);
    OneObject(devs, m, q, Execute(devs, m), Apply(q, c.op, Found(m)), o);
    ExecutesFrom(devs, m, q);
  }

  lemma FillExecutes(devs: seq<Device>, m: Machine, q: Memory)
    requires Executable(devs, m) && m.queue[0].op.Fill? && Findable(m) && m.queue[0].op.obj in q.mem && m.queue[0].op.obj in Found(m)
    requires var c := m.queue[0].op;
             c.obj in m.objs && Dev(m.queue[0].dev) in m.objs[c.obj].copies && c.off + |c.data| <= |m.objs[c.obj].copies[Dev(m.queue[0].dev)]|
    requires m.queue[0].op.off + |m.queue[0].op.data| <= |Value(q, m.queue[0].op.obj, Found(m))| && q.log == m.log
    ensures Performs(q, m.queue[0].op, Found(m))
    ensures var n, q', c, d := Execute(devs, m), Apply(q, m.queue[0].op, Found(m)), m.queue[0].op, Dev(m.queue[0].dev);
            && n.log == q'.log && n.queue == m.queue[1..] && n.head == FRESH
            && n.objs == m.objs[c.obj := m.objs[c.obj].(copies := m.objs[c.obj].copies[d := Splice(m.objs[c.obj].copies[d], c.off, c.data)])]
            && q'.mem == q.mem[c.obj := Some(Splice(Value(q, c.obj, Found(m)), c.off, c.data))]
  {
    hide Ok;
  }

  lemma DeviceCopy(devs: seq<Device>, ob: Object, n: nat)
    requires ObjectOk(devs, ob) && n < |devs|
    ensures Dev(n) in ob.copies && |ob.copies[Dev(n)]| == ob.size
  {}

  lemma FillSettles(devs: seq<Device>, m: Machine, q: Memory)
    requires Running(devs, m, q) && m.queue[0].op.Fill? && !m.head.fetch.Wanted?
    ensures Executes(devs, m, q)
  {
    hide *;
    RunningParts(devs, m, q);
    var c := m.queue[0];
    var o, d := c.op.obj, Dev(c.dev);
    SuppliedWrite(m.objs, q, c, m.head);
    FoundIs(devs, m, q, o);
    InUseParts(devs, m, q, o);
    RangesOk(devs, m.objs, c);
    DeviceCopy(devs, m.objs[o], c.dev);
    DirectSettled(devs, m.objs[o], q.mem[o], d, c.op.off, c.op.data, Overwrites(m.objs, c.op, o), o);
    FillExecutes(devs, m, q);
    OneObject(devs, m, q, Execute(devs, m), Apply(q, c.op, Found(m)), o);
    ExecutesFrom(devs, m, q);
  }

  lemma SuppliedCopy(objs: Objects, q: Memory, c: Command, h: Head)
    requires h.Submitted? && (forall o :: o in q.mem <==> o in objs) && Names(objs, c.op) && Supplied(objs, q, c, h)
    requires c.op.Copy?
    ensures c.op.src in Touched(c.op) && c.op.dst in Touched(c.op) && Claimed(c.op) == [c.op.dst]
    ensures c.op.src in objs && c.op.dst in objs && objs[c.op.dst].latest == {Dev(c.dev)}
    ensures SourceOk(objs[c.op.src], q.mem[c.op.src], Dev(c.dev), c.op.from, c.op.count, h.fetch, h.source)
    ensures Overwrites(objs, c.op, c.op.dst) <==> c.op.off == 0 && c.op.count == objs[c.op.dst].size
    ensures objs[c.op.dst].flags.OnlyReadOnly() && h.fetch != NoFetch ==> Overwrites(objs, c.op, c.op.dst) || Agree(objs[c.op.dst], Dev(c.dev))
  {}

  /** What a copy moves, through a buffer or not. */
  function Moved(ob: Object, h: Head, from: nat, count: nat): Data
    requires h.Submitted? && (h.fetch.Fetched? || (h.source in ob.copies && from + count <= |ob.copies[h.source]|))
  {
    if h.fetch.Fetched? then h.fetch.data else ob.copies[h.source][from..from + count]
  }

  lemma CopyMoves(devs: seq<Device>, ob: Object, v: Option<Data>, n: nat, from: nat, count: nat, h: Head)
    requires h.Submitted? && !h.fetch.Wanted? && SourceOk(ob, v, Dev(n), from, count, h.fetch, h.source) && ObjectOk(devs, ob) && n < |devs|
    requires from + count <= ob.size && (v.Some? ==> |v.value| == ob.size)
    ensures Dev(n) in ob.copies && |Before(v, ob, Dev(n))| == ob.size && h.source in ob.copies && from + count <= |ob.copies[h.source]|
    ensures Moved(ob, h, from, count) == Before(v, ob, Dev(n))[from..from + count]
  {}

  /** The destination after a copy. */
  function CopiedTo(devs: seq<Device>, ob: Object, h: Head, n: nat, off: nat, data: Data): Object
    requires h.Submitted? && ObjectOk(devs, ob) && n < |devs| && off + |data| <= ob.size
  {
    if h.fetch.Fetched? then Written(devs, ob, n, off, data)
    else DeviceCopy(devs, ob, n); ob.(copies := ob.copies[Dev(n) := Splice(ob.copies[Dev(n)], off, data)])
  }

  lemma CopiedSettled(devs: seq<Device>, ob: Object, v: Option<Data>, h: Head, n: nat, off: nat, data: Data, overwritten: bool, o: nat)
    requires h.Submitted? && ObjectOk(devs, ob) && n < |devs| && (v.Some? ==> |v.value| == ob.size) && ob.latest == {Dev(n)}
    requires InUse(ob, v, Dev(n), true, overwritten) && off + |data| <= ob.size && (overwritten <==> off == 0 && |data| == ob.size)
    requires ob.flags.OnlyReadOnly() && h.fetch.Fetched? ==> overwritten || Agree(ob, Dev(n))
    ensures Dev(n) in ob.copies
    ensures var ob' := CopiedTo(devs, ob, h, n, off, data);
            ObjectSettled(devs, ob', Some(Splice(Before(v, ob, Dev(n)), off, data)), o) && ob'.size == ob.size && ob'.flags == ob.flags
  {
    DeviceCopy(devs, ob, n);
    hide ObjectSettled;
    hide InUse;
    if h.fetch.Fetched? { WrittenSettled(devs, ob, v, n, off, data, overwritten, o); } else { DirectSettled(devs, ob, v, Dev(n), off, data, overwritten, o); }
    hide Written;
  }

  lemma CopyExecutes(devs: seq<Device>, m: Machine, q: Memory, data: Data)
    requires Executable(devs, m) && m.queue[0].op.Copy? && Findable(m) && m.queue[0].dev < |devs| && q.log == m.log
    requires var c := m.queue[0].op;
             && c.src in q.mem && c.src in Found(m) && c.src in m.objs && c.dst in q.mem && c.dst in Found(m) && c.dst in m.objs
             && ObjectOk(devs, m.objs[c.dst]) && c.off + c.count <= m.objs[c.dst].size && |data| == c.count
             && c.from + c.count <= |Value(q, c.src, Found(m))| && c.off + c.count <= |Value(q, c.dst, Found(m))|
             && m.head.source in m.objs[c.src].copies && c.from + c.count <= |m.objs[c.src].copies[m.head.source]|
             && data == Moved(m.objs[c.src], m.head, c.from, c.count) && data == Value(q, c.src, Found(m))[c.from..c.from + c.count]
    ensures Performs(q, m.queue[0].op, Found(m))
    ensures var n, q', c := Execute(devs, m), Apply(q, m.queue[0].op, Found(m)), m.queue[0].op;
            && n.log == q'.log && n.queue == m.queue[1..] && n.head == FRESH
            && n.objs == m.objs[c.dst := CopiedTo(devs, m.objs[c.dst], m.head, m.queue[0].dev, c.off, data)]
            && q'.mem == q.mem[c.dst := Some(Splice(Value(q, c.dst, Found(m)), c.off, data))]
  {
    hide Ok;
    hide Splice;
    hide Written;
  }

  lemma CopySettles(devs: seq<Device>, m: Machine, q: Memory)
    requires Running(devs, m, q) && m.queue[0].op.Copy? && !m.head.fetch.Wanted?
    ensures Executes(devs, m, q)
  {
    hide *;
    RunningParts(devs, m, q);
    var c, h := m.queue[0], m.head;
    var s, t := c.op.src, c.op.dst;
    SuppliedCopy(m.objs, q, c, h);
    FoundIs(devs, m, q, s);
    FoundIs(devs, m, q, t);
    InUseParts(devs, m, q, s);
    InUseParts(devs, m, q, t);
    RangesOk(devs, m.objs, c);
    CopyMoves(devs, m.objs[s], q.mem[s], c.dev, c.op.from, c.op.count, h);
    var data := Moved(m.objs[s], h, c.op.from, c.op.count);
    CopiedSettled(devs, m.objs[t], q.mem[t], h, c.dev, c.op.off, data, Overwrites(m.objs, c.op, t), t);
    CopyExecutes(devs, m, q, data);
    OneObject(devs, m, q, Execute(devs, m), Apply(q, c.op, Found(m)), t);
    ExecutesFrom(devs, m, q);
  }
}
