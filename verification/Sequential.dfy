/** On one in-order queue the runtime behaves like one memory: whatever devices the
    commands are given to, kernels and reads see what they would see there. */
module Sequential {
  import opened Wrappers
  import opened Devices
  import opened Coherence

  /** Object o, between commands or while the head waits for its clones: every latest
      place holds the contents v, except that a clone may still be on its way to d. */
  ghost predicate Tracked(ob: Object, v: Option<Data>, d: Loc, clones: map<nat, Clone>, o: nat) {
    match v
    case None => ob.latest == {} && o !in clones
    case Some(x) =>
      && ob.latest != {}
      && (forall l | l in ob.latest :: l in ob.copies)
      && if o !in clones then forall l | l in ob.latest :: ob.copies[l] == x
         else
           && d in ob.latest && (forall l | l in ob.latest && l != d :: ob.copies[l] == x)
           && match clones[o]
              case Ordered(from) => from in ob.latest && from != d
              case Carried(from, data) => data == x && from in ob.latest && from != d
  }

  /** The objects of machine and memory belong together. */
  ghost predicate Matched(devs: seq<Device>, m: Machine, q: Memory) {
    && Ok(devs, m) && q.log == m.log
    && (forall o :: o in q.mem <==> o in m.objs)
    && (forall o | o in q.mem && q.mem[o].Some? :: |q.mem[o].value| == m.objs[o].size)
  }

  function HeadDev(m: Machine): Loc { if m.queue == [] then Host else Dev(m.queue[0].dev) }

  /** Where a copy reads from: a place with the contents v of the source, or, if they
      are undefined, the device itself; likewise what has been read from there. */
  ghost predicate SourceOk(ob: Object, v: Option<Data>, d: Loc, from: nat, count: nat, fetch: Fetch, source: Loc) {
    && source in ob.copies
    && (v.Some? ==> ob.copies[source] == v.value && from + count <= |v.value|)
    && (v.None? ==> source == d && fetch == NoFetch)
    && (fetch.Wanted? ==> fetch.from == source)
    && (fetch.Fetched? ==> v.Some? && fetch.data == v.value[from..from + count])
  }

  /** The head has what it needs as soon as its clones have arrived. A fill never waits. */
  ghost predicate Prepared(objs: Objects, q: Memory, c: Command, h: Head)
    requires h.Resolving? && (forall o :: o in q.mem <==> o in objs) && Names(objs, c.op)
  {
    var d := Dev(c.dev);
    match c.op
    case Kernel(args, _) => forall a | a in args :: Located(objs, a, d)
    case Read(o, _, _) => h.source == d && Located(objs, o, d)
    case Write(o, off, data) => WholeObject(objs, o, off, |data|) || Located(objs, o, d)
    case Fill(_, _, _) => false
    case Copy(s, t, from, off, count) =>
      && (WholeObject(objs, t, off, count) || Located(objs, t, d))
      && SourceOk(objs[s], q.mem[s], d, from, count, h.fetch, h.source)
      && (s in h.clones ==> h.source != d)
  }

  ghost predicate AllTracked(objs: Objects, q: Memory, d: Loc, clones: map<nat, Clone>) {
    && (forall o :: o in q.mem <==> o in objs)
    && forall o | o in objs :: Tracked(objs[o], q.mem[o], d, clones, o)
  }

  /** The scheduler has the head in hand, or there is none. */
  ghost predicate Waiting(devs: seq<Device>, m: Machine, q: Memory) {
    && Matched(devs, m, q) && m.head.Resolving? && Known(devs, m.head.source)
    && AllTracked(m.objs, q, HeadDev(m), m.head.clones)
    && (forall o | o in m.head.clones :: o in m.objs)
    && (m.queue == [] ==> m.head == FRESH)
    && (m.queue != [] ==>
          Names(m.objs, m.queue[0].op) &&
          if m.head.resolved then
            Prepared(m.objs, q, m.queue[0], m.head) && (!m.queue[0].op.Copy? ==> m.head.fetch == NoFetch)
          else m.head.fetch == NoFetch && (m.head.refusals == 0 ==> m.head.clones == map[]))
  }

  /** The command writes all of object o, whatever is there. */
  ghost predicate Overwrites(objs: Objects, op: Op, o: nat)
    requires Names(objs, op)
  {
    match op
    case Kernel(_, _) => false
    case Read(_, _, _) => false
    case Write(t, off, data) => t == o && WholeObject(objs, t, off, |data|)
    case Fill(t, off, data) => t == o && WholeObject(objs, t, off, |data|)
    case Copy(_, t, _, off, count) => t == o && WholeObject(objs, t, off, count)
  }

  /** Object o while a command is on the device: as before, but a first use or a full
      overwrite is still to give it contents. */
  ghost predicate InUse(ob: Object, v: Option<Data>, d: Loc, used: bool, overwritten: bool) {
    if overwritten then ob.latest == {d}
    else match v
      case None => ob.latest == {} || (used && ob.latest == {d})
      case Some(x) => ob.latest != {} && forall l | l in ob.latest :: l in ob.copies && ob.copies[l] == x
  }

  /** All devices hold what d holds. */
  ghost predicate Agree(ob: Object, d: Loc) {
    d in ob.copies && forall l | l in ob.copies && l.Dev? :: ob.copies[l] == ob.copies[d]
  }

  /** The kernel leaves argument a as it is. */
  ghost predicate Preserves(objs: Objects, args: seq<nat>, run: map<nat, Data> -> map<nat, Data>, a: nat) {
    forall ins: map<nat, Data> | Fits(objs, args, ins) :: a in ins && a in run(ins) && run(ins)[a] == ins[a]
  }

  predicate OthersLatest(devs: seq<Device>, latest: set<Loc>, n: nat) { forall k: nat | k < |devs| && k != n :: Dev(k) in latest }

  /** What keeps a command from harm, given the objects as they are when it is submitted:
      a kernel changes an argument that is not writable only if no other place has the
      latest contents; part of an object is filled only where they are; and part of a
      read-only object is written, which happens on all devices, only if all others have
      them. */
  ghost predicate Harmless(devs: seq<Device>, objs: Objects, c: Command, fetch: Fetch)
    requires Names(objs, c.op)
  {
    match c.op
    case Kernel(args, run) =>
      forall a | a in args :: objs[a].flags.Writable() || objs[a].latest <= {Dev(c.dev)} || Preserves(objs, args, run, a)
    case Read(_, _, _) => true
    case Write(o, off, data) =>
      objs[o].flags.OnlyReadOnly() ==> WholeObject(objs, o, off, |data|) || OthersLatest(devs, objs[o].latest, c.dev)
    case Fill(o, off, data) => WholeObject(objs, o, off, |data|) || Located(objs, o, Dev(c.dev))
    case Copy(_, t, _, off, count) =>
      objs[t].flags.OnlyReadOnly() && fetch != NoFetch ==> WholeObject(objs, t, off, count) || OthersLatest(devs, objs[t].latest, c.dev)
  }

  /** If the head of m is submitted in n, that is harmless. */
  ghost predicate Careful(devs: seq<Device>, m: Machine, n: Machine) {
    m.queue != [] && n.head.Submitted? ==> Names(m.objs, m.queue[0].op) && Harmless(devs, m.objs, m.queue[0], n.head.fetch)
  }

  /** The running command finds current contents where it looks. */
  ghost predicate Supplied(objs: Objects, q: Memory, c: Command, h: Head)
    requires h.Submitted? && (forall o :: o in q.mem <==> o in objs) && Names(objs, c.op)
  {
    var d := Dev(c.dev);
    match c.op
    case Kernel(args, run) =>
      h.fetch == NoFetch && forall a | a in args :: d in objs[a].latest && (objs[a].latest == {d} || (!objs[a].flags.Writable() && Preserves(objs, args, run, a)))
    case Read(o, _, _) => h.fetch == NoFetch && h.source in objs[o].latest && (q.mem[o].None? ==> h.source == d)
    case Write(o, off, data) =>
      h.fetch == NoFetch && objs[o].latest == {d} && (objs[o].flags.OnlyReadOnly() ==> WholeObject(objs, o, off, |data|) || Agree(objs[o], d))
    case Fill(o, _, _) => h.fetch == NoFetch && objs[o].latest == {d}
    case Copy(s, t, from, off, count) =>
      && objs[t].latest == {d} && SourceOk(objs[s], q.mem[s], d, from, count, h.fetch, h.source)
      && (objs[t].flags.OnlyReadOnly() && h.fetch != NoFetch ==> WholeObject(objs, t, off, count) || Agree(objs[t], d))
  }

  ghost predicate Running(devs: seq<Device>, m: Machine, q: Memory) {
    && Matched(devs, m, q) && m.head.Submitted? && m.queue != [] && Names(m.objs, m.queue[0].op) && Known(devs, m.head.source)
    && (forall o | o in m.objs :: InUse(m.objs[o], q.mem[o], HeadDev(m), o in Claimed(m.queue[0].op), Overwrites(m.objs, m.queue[0].op, o)))
    && Supplied(m.objs, q, m.queue[0], m.head)
  }

  ghost predicate Inv(devs: seq<Device>, m: Machine, q: Memory) { Waiting(devs, m, q) || Running(devs, m, q) }

  /** What a program can do to be on the safe side: fill no part of an object, write no
      part of a read-only one, and change in no kernel an argument that is not
      writable. */
  ghost predicate Sound(objs: Objects, op: Op)
    requires Names(objs, op)
  {
    match op
    case Kernel(args, run) => forall a | a in args && !objs[a].flags.Writable() :: Preserves(objs, args, run, a)
    case Read(_, _, _) => true
    case Write(o, off, data) => objs[o].flags.OnlyReadOnly() ==> WholeObject(objs, o, off, |data|)
    case Fill(o, off, data) => WholeObject(objs, o, off, |data|)
    case Copy(_, t, _, off, count) => objs[t].flags.OnlyReadOnly() ==> WholeObject(objs, t, off, count)
  }

  lemma SoundHarmless(devs: seq<Device>, objs: Objects, c: Command, fetch: Fetch)
    requires Names(objs, c.op) && Sound(objs, c.op)
    ensures Harmless(devs, objs, c, fetch)
  {
    hide Preserves;
  }

  /** Objects that differ at most in their latest sets. */
  ghost predicate Alike(a: Object, b: Object) { a.flags == b.flags && a.size == b.size && a.copies == b.copies }

  ghost predicate SameObjects(objs: Objects, objs': Objects) {
    (forall o :: o in objs <==> o in objs') && forall o | o in objs :: Alike(objs[o], objs'[o])
  }

  /** Objects of the same sizes. */
  ghost predicate SameSizes(objs: Objects, objs': Objects) {
    (forall o :: o in objs <==> o in objs') && forall o | o in objs :: objs[o].size == objs'[o].size && objs[o].flags == objs'[o].flags
  }

  lemma CommandKept(devs: seq<Device>, objs: Objects, objs': Objects, c: Command)
    requires SameSizes(objs, objs') && CommandOk(devs, objs, c)
    ensures CommandOk(devs, objs', c)
  {
    if c.op.Kernel? {
      forall ins: map<nat, Data> | Fits(objs', c.op.args, ins) ensures Fits(objs', c.op.args, c.op.run(ins)) {
        assert Fits(objs, c.op.args, ins);
        assert Fits(objs, c.op.args, c.op.run(ins));
      }
    }
  }

  lemma PreservesKept(objs: Objects, objs': Objects, args: seq<nat>, run: map<nat, Data> -> map<nat, Data>, a: nat)
    requires SameSizes(objs, objs') && Preserves(objs, args, run, a)
    ensures Preserves(objs', args, run, a)
  {
    forall ins: map<nat, Data> | Fits(objs', args, ins) ensures a in ins && a in run(ins) && run(ins)[a] == ins[a] {
      assert Fits(objs, args, ins);
    }
  }

  lemma SoundKept(objs: Objects, objs': Objects, op: Op)
    requires SameSizes(objs, objs') && Names(objs, op) && Sound(objs, op)
    ensures Names(objs', op) && Sound(objs', op)
  {
    hide Preserves;
    if op.Kernel? {
      forall a | a in op.args && !objs'[a].flags.Writable() ensures Preserves(objs', op.args, op.run, a) {
        PreservesKept(objs, objs', op.args, op.run, a);
      }
    }
  }

  lemma CommandNames(devs: seq<Device>, objs: Objects, c: Command)
    requires CommandOk(devs, objs, c)
    ensures Names(objs, c.op) && c.dev < |devs|
  {}

  /** Changing objects in ways that keep their sizes keeps machine and memory matched. */
  lemma MatchedKept(devs: seq<Device>, m: Machine, q: Memory, m': Machine)
    requires Matched(devs, m, q) && SameSizes(m.objs, m'.objs) && ObjectsOk(devs, m'.objs)
    requires (m'.queue == m.queue || (m.queue != [] && m'.queue == m.queue[1..])) && m'.log == m.log
    ensures Matched(devs, m', q)
  {
    hide CommandOk;
    hide ObjectOk;
    forall i | 0 <= i < |m'.queue| ensures CommandOk(devs, m'.objs, m'.queue[i]) {
      var j := if m'.queue == m.queue then i else i + 1;
      assert m'.queue[i] == m.queue[j];
      CommandKept(devs, m.objs, m'.objs, m.queue[j]);
    }
  }

  ghost predicate NearestOk(devs: seq<Device>, objs: Objects, near: nat -> Loc) {
    && (forall o :: Known(devs, near(o)))
    && forall o | o in objs && objs[o].latest != {} :: near(o) in objs[o].latest
  }

  /** Object after it has been located on d, and after a kernel on d has claimed it. */
  function AfterLocate(ob: Object, d: Loc): Object {
    if d in ob.latest || ob.latest == {} then ob else ob.(latest := ob.latest + {d})
  }

  function AfterUpdate(ob: Object, d: Loc): Object {
    ob.(latest := if ob.flags.Writable() then {d} else ob.latest + {d})
  }

  lemma ArgsSplit(args: seq<nat>, o: nat)
    requires args != []
    ensures o in args <==> o in args[..|args| - 1] || o == args[|args| - 1]
  {}

  /** LocateAll, object by object. */
  lemma {:induction false} LocateAllIs(objs: Objects, args: seq<nat>, d: Loc, near: nat -> Loc, o: nat)
    requires (forall a | a in args :: a in objs) && o in objs
    ensures var r := LocateAll(objs, map[], args, d, near);
            && r.0[o] == (if o in args then AfterLocate(objs[o], d) else objs[o])
            && (o in r.1 <==> o in args && !Located(objs, o, d))
            && (o in r.1 ==> r.1[o] == Ordered(near(o)))
            && r.1.Keys <= objs.Keys
  {
    if args != [] {
      var n := |args| - 1;
      ArgsSplit(args, o);
      LocateAllIs(objs, args[..n], d, near, o);
      ArgsSplit(args, args[n]);
      LocateAllIs(objs, args[..n], d, near, args[n]);
    }
  }

  lemma {:induction false} UpdateAllIs(objs: Objects, args: seq<nat>, d: Loc, o: nat)
    requires (forall a | a in args :: a in objs) && o in objs
    ensures UpdateAll(objs, args, d)[o] == if o in args then AfterUpdate(objs[o], d) else objs[o]
  {
    if args != [] {
      var n := |args| - 1;
      ArgsSplit(args, o);
      UpdateAllIs(objs, args[..n], d, o);
    }
  }

  lemma LocateTracked(ob: Object, v: Option<Data>, d: Loc, clones: map<nat, Clone>, clones': map<nat, Clone>, o: nat, from: Loc)
    requires Tracked(ob, v, d, clones, o) && o !in clones && d in ob.copies && (ob.latest != {} ==> from in ob.latest)
    requires o in clones' <==> d !in ob.latest && ob.latest != {}
    requires o in clones' ==> clones'[o] == Ordered(from)
    ensures Tracked(AfterLocate(ob, d), v, d, clones', o)
  {}

  /** All clones have arrived and the head can be submitted. */
  ghost predicate Ready(objs: Objects, q: Memory, c: Command, fetch: Fetch, source: Loc)
    requires (forall o :: o in q.mem <==> o in objs) && Names(objs, c.op)
  {
    var d := Dev(c.dev);
    match c.op
    case Kernel(args, _) => fetch == NoFetch && forall a | a in args :: Located(objs, a, d)
    case Read(o, _, _) => fetch == NoFetch && if objs[o].latest == {} then source == d else source in objs[o].latest
    case Write(o, off, data) => fetch == NoFetch && (WholeObject(objs, o, off, |data|) || Located(objs, o, d))
    case Fill(o, off, data) => fetch == NoFetch && (WholeObject(objs, o, off, |data|) || Located(objs, o, d))
    case Copy(s, t, from, off, count) =>
      && (WholeObject(objs, t, off, count) || Located(objs, t, d))
      && SourceOk(objs[s], q.mem[s], d, from, count, fetch, source)
  }

  /** An object not needed stays in use as it was tracked. */
  lemma TrackedInUse(ob: Object, v: Option<Data>, d: Loc, o: nat, used: bool)
    requires Tracked(ob, v, d, map[], o)
    ensures InUse(ob, v, d, used, false)
  {}

  lemma ClaimedInUse(ob: Object, v: Option<Data>, d: Loc, o: nat)
    requires Tracked(ob, v, d, map[], o) && (d in ob.latest || ob.latest == {})
    ensures InUse(AfterUpdate(ob, d), v, d, true, false) && InUse(ob.(latest := {d}), v, d, true, false)
  {}

  lemma AddedInUse(ob: Object, v: Option<Data>, d: Loc, o: nat, l: Loc)
    requires Tracked(ob, v, d, map[], o) && (if ob.latest == {} then l == d else l in ob.latest)
    ensures InUse(ob.(latest := ob.latest + {l}), v, d, true, false)
  {
    if ob.latest == {} { assert ob.latest + {l} == {d}; } else { assert ob.latest + {l} == ob.latest; }
  }

  /** What Submit makes of each object. */
  function AfterSubmit(ob: Object, op: Op, o: nat, d: Loc, source: Loc): Object {
    if o !in Touched(op) then ob else
      match op
      case Kernel(_, _) => AfterUpdate(ob, d)
      case Read(_, _, _) => ob.(latest := ob.latest + {source})
      case Write(_, _, _) => ob.(latest := {d})
      case Fill(_, _, _) => ob.(latest := {d})
      case Copy(_, t, _, _, _) => if o == t then ob.(latest := {d}) else ob
  }

  lemma SubmitIs(m: Machine, objs: Objects, fetch: Fetch, source: Loc)
    requires m.queue != [] && objs.Keys == m.objs.Keys && Names(objs, m.queue[0].op)
    ensures var n := Submit(m, objs, fetch, source);
            && n.queue == m.queue && n.log == m.log && n.head == Submitted(fetch, source)
            && (forall o :: o in n.objs <==> o in objs)
            && forall o | o in objs :: n.objs[o] == AfterSubmit(objs[o], m.queue[0].op, o, Dev(m.queue[0].dev), source)
  {
    var c, n := m.queue[0], Submit(m, objs, fetch, source);
    if c.op.Kernel? {
      forall o | o in objs ensures n.objs[o] == AfterSubmit(objs[o], c.op, o, Dev(c.dev), source) {
        UpdateAllIs(objs, c.op.args, Dev(c.dev), o);
      }
    }
  }

  lemma SubmitInUse(objs: Objects, q: Memory, c: Command, fetch: Fetch, source: Loc, o: nat)
    requires (forall o :: o in q.mem <==> o in objs) && Names(objs, c.op) && Ready(objs, q, c, fetch, source)
    requires o in objs && Tracked(objs[o], q.mem[o], Dev(c.dev), map[], o)
    ensures InUse(AfterSubmit(objs[o], c.op, o, Dev(c.dev), source), q.mem[o], Dev(c.dev), o in Claimed(c.op), Overwrites(objs, c.op, o))
  {
    var d := Dev(c.dev);
    if o !in Touched(c.op) {
      TrackedInUse(objs[o], q.mem[o], d, o, false);
    } else if c.op.Read? {
      AddedInUse(objs[o], q.mem[o], d, o, source);
    } else if c.op.Copy? && o != c.op.dst {
      TrackedInUse(objs[o], q.mem[o], d, o, false);
    } else if !Overwrites(objs, c.op, o) {
      ClaimedInUse(objs[o], q.mem[o], d, o);
    }
  }

  /** Submitting a ready head. */
  lemma SubmitKeeps(devs: seq<Device>, m: Machine, q: Memory, objs: Objects, fetch: Fetch, source: Loc)
    requires Matched(devs, m, q) && m.queue != [] && SameObjects(m.objs, objs) && ObjectsOk(devs, objs) && objs.Keys == m.objs.Keys
    requires AllTracked(objs, q, Dev(m.queue[0].dev), map[]) && Names(objs, m.queue[0].op) && Ready(objs, q, m.queue[0], fetch, source)
    requires Known(devs, source) && m.queue[0].dev < |devs| && Harmless(devs, objs, m.queue[0], fetch)
    ensures Running(devs, Submit(m, objs, fetch, source), q)
  {
    hide Harmless;
    hide Submit;
    hide ObjectOk;
    hide CommandOk;
    hide AfterSubmit;
    hide InUse;
    hide Overwrites;
    hide Tracked;
    hide Ready;
    hide Supplied;
    hide Touched;
    hide Claimed;
    var c, n := m.queue[0], Submit(m, objs, fetch, source);
    var d := Dev(c.dev);
    SubmitIs(m, objs, fetch, source);
    forall o | o in objs ensures ObjectOk(devs, n.objs[o]) && Alike(objs[o], n.objs[o]) {
      AfterSubmitOk(devs, objs[o], c.op, o, d, source);
    }
    forall o | o in objs ensures Names(n.objs, c.op) && InUse(n.objs[o], q.mem[o], d, o in Claimed(c.op), Overwrites(n.objs, c.op, o)) {
      SubmitInUse(objs, q, c, fetch, source, o);
      OverwritesSame(objs, n.objs, c.op, o);
    }
    MatchedKept(devs, m, q, n);
    SubmitSupplied(devs, objs, q, c, fetch, source, n.objs);
  }

  lemma AfterSubmitOk(devs: seq<Device>, ob: Object, op: Op, o: nat, d: Loc, source: Loc)
    requires ObjectOk(devs, ob) && Known(devs, d) && Known(devs, source)
    ensures ObjectOk(devs, AfterSubmit(ob, op, o, d, source)) && Alike(ob, AfterSubmit(ob, op, o, d, source))
  {}

  lemma OverwritesSame(objs: Objects, objs': Objects, op: Op, o: nat)
    requires Names(objs, op) && (forall o :: o in objs' <==> o in objs)
    requires forall o | o in objs :: objs'[o].size == objs[o].size
    ensures Names(objs', op) && Overwrites(objs', op, o) == Overwrites(objs, op, o)
  {}

  /** If all other devices have the latest contents, a device that has been located holds
      the same. */
  lemma OthersAgree(devs: seq<Device>, ob: Object, v: Option<Data>, n: nat, o: nat)
    requires ObjectOk(devs, ob) && n < |devs| && Tracked(ob, v, Dev(n), map[], o) && OthersLatest(devs, ob.latest, n)
    requires Dev(n) in ob.latest || ob.latest == {}
    ensures Agree(ob, Dev(n))
  {
    forall l | l in ob.copies && l.Dev? ensures ob.copies[l] == ob.copies[Dev(n)] {
      assert l.n == n || Dev(l.n) in ob.latest;
    }
  }

  lemma SubmitSupplied(devs: seq<Device>, objs: Objects, q: Memory, c: Command, fetch: Fetch, source: Loc, objs': Objects)
    requires (forall o :: o in q.mem <==> o in objs) && Names(objs, c.op) && Ready(objs, q, c, fetch, source)
    requires ObjectsOk(devs, objs) && c.dev < |devs| && Harmless(devs, objs, c, fetch)
    requires (forall o :: o in objs' <==> o in objs)
    requires forall o | o in objs :: Tracked(objs[o], q.mem[o], Dev(c.dev), map[], o)
    requires forall o | o in objs :: objs'[o] == AfterSubmit(objs[o], c.op, o, Dev(c.dev), source)
    ensures Names(objs', c.op) && Supplied(objs', q, c, Submitted(fetch, source))
  {
    hide *;
    if c.op.Kernel? {
      HarmlessKernel(devs, objs, c, fetch);
      SubmitKernel(objs, q, c, fetch, source, objs');
    } else {
      if c.op.Write? { WrittenAgree(devs, objs, q, c, fetch, source, c.op.obj); }
      if c.op.Copy? { WrittenAgree(devs, objs, q, c, fetch, source, c.op.dst); }
      SubmitOther(devs, objs, q, c, fetch, source, objs');
    }
  }

  lemma HarmlessKernel(devs: seq<Device>, objs: Objects, c: Command, fetch: Fetch)
    requires Names(objs, c.op) && Harmless(devs, objs, c, fetch) && c.op.Kernel?
    ensures forall a | a in c.op.args :: a in objs && (objs[a].flags.Writable() || objs[a].latest <= {Dev(c.dev)} || Preserves(objs, c.op.args, c.op.run, a))
  {
    hide Preserves;
  }

  /** Command c writes part of read-only object o through WriteBuffer. */
  ghost predicate SpreadsPart(objs: Objects, c: Command, fetch: Fetch, o: nat)
    requires Names(objs, c.op)
  {
    match c.op
    case Write(t, off, data) => t == o && objs[o].flags.OnlyReadOnly() && !WholeObject(objs, o, off, |data|)
    case Copy(_, t, _, off, count) => t == o && objs[o].flags.OnlyReadOnly() && fetch != NoFetch && !WholeObject(objs, o, off, count)
    case _ => false
  }

  lemma WrittenAgree(devs: seq<Device>, objs: Objects, q: Memory, c: Command, fetch: Fetch, source: Loc, o: nat)
    requires (forall o :: o in q.mem <==> o in objs) && Names(objs, c.op) && Ready(objs, q, c, fetch, source)
    requires ObjectsOk(devs, objs) && c.dev < |devs| && Harmless(devs, objs, c, fetch)
    requires forall o | o in objs :: Tracked(objs[o], q.mem[o], Dev(c.dev), map[], o)
    ensures SpreadsPart(objs, c, fetch, o) ==> o in objs && Agree(objs[o], Dev(c.dev))
  {
    hide Tracked;
    hide Agree;
    hide ObjectOk;
    hide OthersLatest;
    hide SourceOk;
    if SpreadsPart(objs, c, fetch, o) {
      OthersAgree(devs, objs[o], q.mem[o], c.dev, o);
    }
  }

  lemma SubmitOther(devs: seq<Device>, objs: Objects, q: Memory, c: Command, fetch: Fetch, source: Loc, objs': Objects)
    requires (forall o :: o in q.mem <==> o in objs) && Names(objs, c.op) && Ready(objs, q, c, fetch, source) && !c.op.Kernel?
    requires (forall o :: o in objs' <==> o in objs)
    requires forall o | o in objs :: Tracked(objs[o], q.mem[o], Dev(c.dev), map[], o)
    requires forall o | o in objs :: objs'[o] == AfterSubmit(objs[o], c.op, o, Dev(c.dev), source)
    requires c.op.Write? && SpreadsPart(objs, c, fetch, c.op.obj) ==> Agree(objs[c.op.obj], Dev(c.dev))
    requires c.op.Copy? && SpreadsPart(objs, c, fetch, c.op.dst) ==> Agree(objs[c.op.dst], Dev(c.dev))
    ensures Names(objs', c.op) && Supplied(objs', q, c, Submitted(fetch, source))
  {}

  lemma SubmitKernel(objs: Objects, q: Memory, c: Command, fetch: Fetch, source: Loc, objs': Objects)
    requires (forall o :: o in q.mem <==> o in objs) && Names(objs, c.op) && Ready(objs, q, c, fetch, source) && c.op.Kernel?
    requires forall a | a in c.op.args :: objs[a].flags.Writable() || objs[a].latest <= {Dev(c.dev)} || Preserves(objs, c.op.args, c.op.run, a)
    requires (forall o :: o in objs' <==> o in objs)
    requires forall o | o in objs :: objs'[o] == AfterSubmit(objs[o], c.op, o, Dev(c.dev), source)
    ensures Names(objs', c.op) && Supplied(objs', q, c, Submitted(fetch, source))
  {
    hide Preserves;
    var d := Dev(c.dev);
    assert SameSizes(objs, objs');
    forall a | a in c.op.args
      ensures d in objs'[a].latest && (objs'[a].latest == {d} || (!objs'[a].flags.Writable() && Preserves(objs', c.op.args, c.op.run, a)))
    {
      if !objs[a].flags.Writable() && !(objs[a].latest <= {d}) { PreservesKept(objs, objs', c.op.args, c.op.run, a); }
    }
  }

  /** An answer of false, with the clones and the read that were ordered. */
  lemma RefuseKeeps(devs: seq<Device>, m: Machine, q: Memory, objs: Objects, resolved: bool, clones: map<nat, Clone>, fetch: Fetch, source: Loc)
    requires Matched(devs, m, q) && m.queue != [] && m.head.Resolving? && SameObjects(m.objs, objs) && ObjectsOk(devs, objs) && Known(devs, source)
    requires AllTracked(objs, q, Dev(m.queue[0].dev), clones) && Names(objs, m.queue[0].op)
    requires forall o | o in clones :: o in objs
    requires !m.queue[0].op.Copy? ==> fetch == NoFetch
    requires if resolved then Prepared(objs, q, m.queue[0], Resolving(resolved, m.head.refusals + 1, clones, fetch, source)) else fetch == NoFetch
    ensures Waiting(devs, Refuse(m, objs, resolved, clones, fetch, source), q)
  {
    hide CommandOk;
    hide ObjectOk;
    hide Tracked;
    hide Prepared;
    hide Names;
    MatchedKept(devs, m, q, Refuse(m, objs, resolved, clones, fetch, source));
  }

  lemma TrackedFrame(ob: Object, v: Option<Data>, d: Loc, clones: map<nat, Clone>, clones': map<nat, Clone>, o: nat)
    requires Tracked(ob, v, d, clones, o) && o !in clones && o !in clones'
    ensures Tracked(ob, v, d, clones', o)
  {}

  lemma TrackedAt(objs: Objects, q: Memory, d: Loc, clones: map<nat, Clone>, o: nat)
    requires AllTracked(objs, q, d, clones) && o in objs
    ensures o in q.mem && Tracked(objs[o], q.mem[o], d, clones, o)
  {
    hide Tracked;
  }

  lemma AllTrackedFrom(objs: Objects, q: Memory, d: Loc, clones: map<nat, Clone>)
    requires forall o :: o in q.mem <==> o in objs
    requires forall o | o in objs :: Tracked(objs[o], q.mem[o], d, clones, o)
    ensures AllTracked(objs, q, d, clones)
  {
    hide Tracked;
  }

  lemma AfterLocateOk(devs: seq<Device>, ob: Object, d: Loc)
    requires ObjectOk(devs, ob) && Known(devs, d)
    ensures ObjectOk(devs, AfterLocate(ob, d)) && Alike(ob, AfterLocate(ob, d)) && d in ob.copies
  {}

  /** Locating objects one by one: those in which are located, the others kept. */
  lemma LocatedKeeps(devs: seq<Device>, objs: Objects, q: Memory, d: Loc, near: nat -> Loc, objs': Objects, clones: map<nat, Clone>, which: set<nat>)
    requires ObjectsOk(devs, objs) && Known(devs, d) && NearestOk(devs, objs, near) && AllTracked(objs, q, d, map[])
    requires (forall o :: o in objs' <==> o in objs) && forall o | o in objs :: objs'[o] == if o in which then AfterLocate(objs[o], d) else objs[o]
    requires forall o | o in objs :: o in clones <==> o in which && !Located(objs, o, d)
    requires forall o | o in clones :: o in objs && clones[o] == Ordered(near(o))
    ensures SameObjects(objs, objs') && ObjectsOk(devs, objs') && AllTracked(objs', q, d, clones)
    ensures forall o | o in which && o in objs :: Located(objs', o, d)
  {
    hide ObjectOk;
    hide Tracked;
    hide AllTracked;
    forall o | o in objs ensures o in q.mem && Alike(objs[o], objs'[o]) && ObjectOk(devs, objs'[o]) && Tracked(objs'[o], q.mem[o], d, clones, o) {
      TrackedAt(objs, q, d, map[], o);
      AfterLocateOk(devs, objs[o], d);
      if o in which {
        LocateTracked(objs[o], q.mem[o], d, map[], clones, o, near(o));
      } else {
        TrackedFrame(objs[o], q.mem[o], d, map[], clones, o);
      }
    }
    assert forall o :: o in q.mem <==> o in objs by { KeysOf(objs, q, d, map[]); }
    AllTrackedFrom(objs', q, d, clones);
  }

  lemma KeysOf(objs: Objects, q: Memory, d: Loc, clones: map<nat, Clone>)
    requires AllTracked(objs, q, d, clones)
    ensures forall o :: o in q.mem <==> o in objs
  {
    hide Tracked;
  }

  /** Locating one object on d. */
  lemma LocateKeeps(devs: seq<Device>, objs: Objects, q: Memory, d: Loc, o: nat, near: nat -> Loc)
    requires ObjectsOk(devs, objs) && Known(devs, d) && NearestOk(devs, objs, near) && AllTracked(objs, q, d, map[])
    requires o in objs && !Located(objs, o, d)
    ensures var objs' := AddLatest(objs, o, d);
            && SameObjects(objs, objs') && ObjectsOk(devs, objs') && d in objs'[o].latest
            && AllTracked(objs', q, d, map[o := Ordered(near(o))])
  {
    hide ObjectOk;
    hide Tracked;
    hide AllTracked;
    LocatedKeeps(devs, objs, q, d, near, AddLatest(objs, o, d), map[o := Ordered(near(o))], {o});
  }

  /** Locating all arguments of a kernel. */
  lemma LocateAllKeeps(devs: seq<Device>, objs: Objects, q: Memory, args: seq<nat>, d: Loc, near: nat -> Loc)
    requires ObjectsOk(devs, objs) && Known(devs, d) && NearestOk(devs, objs, near) && AllTracked(objs, q, d, map[])
    requires forall a | a in args :: a in objs
    ensures var r := LocateAll(objs, map[], args, d, near);
            && SameObjects(objs, r.0) && ObjectsOk(devs, r.0) && r.0.Keys == objs.Keys && (forall o | o in r.1 :: o in objs)
            && AllTracked(r.0, q, d, r.1)
            && (forall a | a in args :: Located(r.0, a, d))
  {
    hide LocateAll;
    hide ObjectOk;
    hide AllTracked;
    hide AfterLocate;
    var r := LocateAll(objs, map[], args, d, near);
    forall o | o in objs
      ensures r.0[o] == if o in args then AfterLocate(objs[o], d) else objs[o]
      ensures o in r.1 <==> o in args && !Located(objs, o, d)
      ensures o in r.1 ==> r.1[o] == Ordered(near(o))
    {
      LocateAllIs(objs, args, d, near, o);
    }
    LocatedKeeps(devs, objs, q, d, near, r.0, r.1, set a | a in args);
  }

  lemma WaitingParts(devs: seq<Device>, m: Machine, q: Memory)
    requires Waiting(devs, m, q) && m.queue != []
    ensures Matched(devs, m, q) && ObjectsOk(devs, m.objs) && m.queue[0].dev < |devs| && Names(m.objs, m.queue[0].op)
    ensures CommandOk(devs, m.objs, m.queue[0]) && (forall o :: o in q.mem <==> o in m.objs)
    ensures AllTracked(m.objs, q, Dev(m.queue[0].dev), m.head.clones) && SameObjects(m.objs, m.objs)
    ensures m.head.Resolving? && Known(devs, m.head.source) && Known(devs, Dev(m.queue[0].dev))
    ensures forall o | o in m.objs && q.mem[o].Some? :: |q.mem[o].value| == m.objs[o].size
    ensures if m.head.resolved then Prepared(m.objs, q, m.queue[0], m.head) && (!m.queue[0].op.Copy? ==> m.head.fetch == NoFetch)
            else m.head.fetch == NoFetch
  {
    hide ObjectOk;
    hide Tracked;
    hide Prepared;
    assert CommandOk(devs, m.objs, m.queue[0]);
    CommandNames(devs, m.objs, m.queue[0]);
    hide CommandOk;
  }

  /** A careful head is harmless. */
  lemma SubmitsHarmless(devs: seq<Device>, m: Machine, fetch: Fetch, source: Loc)
    requires m.queue != [] && Names(m.objs, m.queue[0].op) && Careful(devs, m, Submit(m, m.objs, fetch, source))
    ensures Harmless(devs, m.objs, m.queue[0], fetch)
  {
    hide Harmless;
  }

  /** The second call of ResolveConsistency only submits. */
  lemma ResolveAgain(devs: seq<Device>, m: Machine, q: Memory, near: nat -> Loc)
    requires Waiting(devs, m, q) && Peeked(m) && Names(m.objs, m.queue[0].op)
    requires m.head.resolved && NearestOk(devs, m.objs, near) && m.queue[0].dev < |devs| && Careful(devs, m, Resolve(devs, m, near))
    ensures Running(devs, Resolve(devs, m, near), q)
  {
    WaitingParts(devs, m, q);
    hide Waiting;
    hide Running;
    hide Matched;
    hide ObjectsOk;
    hide AllTracked;
    hide SameObjects;
    hide Submit;
    hide Prepared;
    hide Ready;
    hide Harmless;
    hide CommandOk;
    hide Touched;
    PreparedReady(m.objs, q, m.queue[0], m.head);
    SubmitsHarmless(devs, m, m.head.fetch, m.head.source);
    SubmitKeeps(devs, m, q, m.objs, m.head.fetch, m.head.source);
  }

  lemma PreparedReady(objs: Objects, q: Memory, c: Command, h: Head)
    requires h.Resolving? && (forall o :: o in q.mem <==> o in objs) && Names(objs, c.op)
    requires Prepared(objs, q, c, h) && (!c.op.Copy? ==> h.fetch == NoFetch)
    ensures Ready(objs, q, c, h.fetch, h.source)
  {
    hide SourceOk;
  }

  lemma ResolveKernel(devs: seq<Device>, m: Machine, q: Memory, near: nat -> Loc)
    requires Waiting(devs, m, q) && Peeked(m) && Names(m.objs, m.queue[0].op) && m.queue[0].op.Kernel?
    requires !m.head.resolved && NearestOk(devs, m.objs, near) && m.queue[0].dev < |devs| && Careful(devs, m, Resolve(devs, m, near))
    ensures Inv(devs, Resolve(devs, m, near), q)
  {
    WaitingParts(devs, m, q);
    hide Careful;
    hide Harmless;
    hide Waiting;
    hide Running;
    hide Matched;
    hide ObjectsOk;
    hide AllTracked;
    hide Submit;
    hide LocateAll;
    hide CommandOk;
    hide NearestOk;
    hide SameObjects;
    var c := m.queue[0];
    var d := Dev(c.dev);
    LocateAllKeeps(devs, m.objs, q, c.op.args, d, near);
    var r := LocateAll(m.objs, map[], c.op.args, d, near);
    KeysOf(r.0, q, d, r.1);
    if r.1 == map[] {
      AllLocated(m.objs, c.op.args, d, near);
      SubmitsHarmless(devs, m, NoFetch, d);
      SubmitKeeps(devs, m, q, r.0, NoFetch, d);
    } else {
      RefuseKeeps(devs, m, q, r.0, true, r.1, NoFetch, d);
    }
  }

  /** If nothing is cloned the objects stay as they are. */
  lemma AllLocated(objs: Objects, args: seq<nat>, d: Loc, near: nat -> Loc)
    requires (forall a | a in args :: a in objs) && LocateAll(objs, map[], args, d, near).1 == map[]
    ensures LocateAll(objs, map[], args, d, near).0 == objs
  {
    hide LocateAll;
    var r := LocateAll(objs, map[], args, d, near);
    forall o | o in objs ensures o in r.0 && r.0[o] == objs[o] {
      LocateAllIs(objs, args, d, near, o);
    }
  }

  lemma NearKnown(devs: seq<Device>, objs: Objects, near: nat -> Loc, o: nat)
    requires NearestOk(devs, objs, near) && o in objs
    ensures Known(devs, near(o)) && (objs[o].latest != {} ==> near(o) in objs[o].latest)
  {}

  lemma NearPlaces(devs: seq<Device>, objs: Objects, near: nat -> Loc)
    requires NearestOk(devs, objs, near)
    ensures forall o :: Known(devs, near(o))
  {}

  lemma ResolveRead(devs: seq<Device>, m: Machine, q: Memory, near: nat -> Loc)
    requires Waiting(devs, m, q) && Peeked(m) && Names(m.objs, m.queue[0].op) && m.queue[0].op.Read?
    requires !m.head.resolved && NearestOk(devs, m.objs, near) && m.queue[0].dev < |devs| && Careful(devs, m, Resolve(devs, m, near))
    ensures Inv(devs, Resolve(devs, m, near), q)
  {
    hide *;
    PeekedParts(m);
    WaitingParts(devs, m, q);
    var c := m.queue[0];
    var d, o := Dev(c.dev), c.op.obj;
    ReadNames(m.objs, c);
    NearKnown(devs, m.objs, near, o);
    NearPlaces(devs, m.objs, near);
    ResolveReadIs(devs, m, near);
    if Located(m.objs, o, d) || near(o) != Host {
      var source := if Located(m.objs, o, d) then d else near(o);
      ReadReady(m.objs, q, c, near(o));
      SubmitsHarmless(devs, m, NoFetch, source);
      SubmitKeeps(devs, m, q, m.objs, NoFetch, source);
      IsInv(devs, Submit(m, m.objs, NoFetch, source), q);
    } else {
      LocateKeeps(devs, m.objs, q, d, o, near);
      ReadPrepared(m.objs, q, c, Resolving(true, m.head.refusals + 1, map[o := Ordered(Host)], NoFetch, d));
      RefuseKeeps(devs, m, q, AddLatest(m.objs, o, d), true, map[o := Ordered(Host)], NoFetch, d);
      IsInv(devs, Refuse(m, AddLatest(m.objs, o, d), true, map[o := Ordered(Host)], NoFetch, d), q);
    }
  }

  lemma PeekedParts(m: Machine)
    requires Peeked(m)
    ensures m.queue != [] && m.head.Resolving? && m.head.clones == map[]
  {}

  lemma IsInv(devs: seq<Device>, m: Machine, q: Memory)
    requires Waiting(devs, m, q) || Running(devs, m, q)
    ensures Inv(devs, m, q)
  {
    hide Waiting;
    hide Running;
  }

  lemma ReadNames(objs: Objects, c: Command)
    requires Names(objs, c.op) && c.op.Read?
    ensures c.op.obj in objs && Names(AddLatest(objs, c.op.obj, Dev(c.dev)), c.op)
  {}

  lemma ResolveReadIs(devs: seq<Device>, m: Machine, near: nat -> Loc)
    requires Peeked(m) && m.queue[0].dev < |devs| && Names(m.objs, m.queue[0].op) && m.queue[0].op.Read? && !m.head.resolved
    requires m.queue[0].op.obj in m.objs && forall o :: Known(devs, near(o))
    ensures m.head.Resolving?
    ensures var o, d := m.queue[0].op.obj, Dev(m.queue[0].dev);
            Resolve(devs, m, near) ==
            if Located(m.objs, o, d) then Submit(m, m.objs, NoFetch, d)
            else if near(o) == Host then Refuse(m, AddLatest(m.objs, o, d), true, map[o := Ordered(Host)], NoFetch, d)
            else Submit(m, m.objs, NoFetch, near(o))
  {
    hide Submit;
  }

  lemma ReadReady(objs: Objects, q: Memory, c: Command, near: Loc)
    requires (forall o :: o in q.mem <==> o in objs) && Names(objs, c.op) && c.op.Read? && c.op.obj in objs
    requires objs[c.op.obj].latest != {} ==> near in objs[c.op.obj].latest
    ensures Ready(objs, q, c, NoFetch, if Located(objs, c.op.obj, Dev(c.dev)) then Dev(c.dev) else near)
  {}

  lemma ReadPrepared(objs: Objects, q: Memory, c: Command, h: Head)
    requires (forall o :: o in q.mem <==> o in objs) && c.op.Read? && c.op.obj in objs && h.Resolving? && h.source == Dev(c.dev)
    ensures var objs' := AddLatest(objs, c.op.obj, Dev(c.dev));
            c.op.obj in objs' && Names(objs', c.op) && Prepared(objs', q, c, h)
  {}

  lemma ResolveWrite(devs: seq<Device>, m: Machine, q: Memory, near: nat -> Loc)
    requires Waiting(devs, m, q) && Peeked(m) && Names(m.objs, m.queue[0].op) && m.queue[0].op.Write?
    requires !m.head.resolved && NearestOk(devs, m.objs, near) && m.queue[0].dev < |devs| && Careful(devs, m, Resolve(devs, m, near))
    ensures Inv(devs, Resolve(devs, m, near), q)
  {
    WaitingParts(devs, m, q);
    hide Careful;
    hide Harmless;
    hide Waiting;
    hide Running;
    hide Matched;
    hide ObjectsOk;
    hide AllTracked;
    hide Submit;
    hide CommandOk;
    hide SameObjects;
    var c := m.queue[0];
    var d, o := Dev(c.dev), c.op.obj;
    NearKnown(devs, m.objs, near, o);
    if WholeObject(m.objs, o, c.op.off, |c.op.data|) || Located(m.objs, o, d) {
      SubmitsHarmless(devs, m, NoFetch, d);
      SubmitKeeps(devs, m, q, m.objs, NoFetch, d);
    } else {
      LocateKeeps(devs, m.objs, q, d, o, near);
      RefuseKeeps(devs, m, q, AddLatest(m.objs, o, d), true, map[o := Ordered(near(o))], NoFetch, d);
    }
  }

  lemma ResolveFill(devs: seq<Device>, m: Machine, q: Memory, near: nat -> Loc)
    requires Waiting(devs, m, q) && Peeked(m) && Names(m.objs, m.queue[0].op) && m.queue[0].op.Fill?
    requires !m.head.resolved && NearestOk(devs, m.objs, near) && m.queue[0].dev < |devs| && Careful(devs, m, Resolve(devs, m, near))
    ensures Inv(devs, Resolve(devs, m, near), q)
  {
    hide *;
    PeekedParts(m);
    WaitingParts(devs, m, q);
    NearPlaces(devs, m.objs, near);
    var d := Dev(m.queue[0].dev);
    FillReady(devs, m, q, near);
    SubmitsHarmless(devs, m, NoFetch, d);
    HarmlessFill(devs, m.objs, q, m.queue[0]);
    SubmitKeeps(devs, m, q, m.objs, NoFetch, d);
    IsInv(devs, Submit(m, m.objs, NoFetch, d), q);
  }

  lemma FillReady(devs: seq<Device>, m: Machine, q: Memory, near: nat -> Loc)
    requires Peeked(m) && m.queue[0].dev < |devs| && Names(m.objs, m.queue[0].op) && m.queue[0].op.Fill? && !m.head.resolved
    requires forall o :: Known(devs, near(o))
    ensures Resolve(devs, m, near) == Submit(m, m.objs, NoFetch, Dev(m.queue[0].dev))
  {
    hide Submit;
  }

  lemma HarmlessFill(devs: seq<Device>, objs: Objects, q: Memory, c: Command)
    requires (forall o :: o in q.mem <==> o in objs) && Names(objs, c.op) && Harmless(devs, objs, c, NoFetch) && c.op.Fill?
    ensures Ready(objs, q, c, NoFetch, Dev(c.dev))
  {}

  /** The place a copy reads from has the current contents of its source. */
  lemma CopySource(devs: seq<Device>, ob: Object, v: Option<Data>, n: nat, o: nat, near: Loc, from: nat, count: nat)
    requires Tracked(ob, v, Dev(n), map[], o) && ObjectOk(devs, ob) && n < |devs| && from + count <= ob.size
    requires v.Some? ==> |v.value| == ob.size
    requires ob.latest != {} ==> near in ob.latest
    ensures var d := Dev(n);
            var source := if d in ob.latest || ob.latest == {} then d else near;
            && Known(devs, source) && (!(d in ob.latest || ob.latest == {}) ==> source != d)
            && SourceOk(ob, v, d, from, count, Feeding(CopyPattern(devs, source, n), source), source)
  {}

  lemma SourceKept(ob: Object, ob': Object, v: Option<Data>, d: Loc, from: nat, count: nat, fetch: Fetch, source: Loc)
    requires SourceOk(ob, v, d, from, count, fetch, source) && ob'.copies == ob.copies
    ensures SourceOk(ob', v, d, from, count, fetch, source)
  {}

  /** A copy can read from the place found, directly or through a buffer. */
  ghost predicate CopyReady(devs: seq<Device>, objs: Objects, q: Memory, c: Command, source: Loc)
    requires c.op.Copy? && c.dev < |devs| && Known(devs, source)
  {
    && c.op.src in objs && c.op.src in q.mem
    && SourceOk(objs[c.op.src], q.mem[c.op.src], Dev(c.dev), c.op.from, c.op.count, Feeding(CopyPattern(devs, source, c.dev), source), source)
  }

  lemma CopyFromKeeps(devs: seq<Device>, m: Machine, q: Memory, near: nat -> Loc, source: Loc)
    requires Matched(devs, m, q) && ObjectsOk(devs, m.objs) && Peeked(m) && m.queue[0].dev < |devs|
    requires Names(m.objs, m.queue[0].op) && m.queue[0].op.Copy? && Known(devs, source) && NearestOk(devs, m.objs, near)
    requires AllTracked(m.objs, q, Dev(m.queue[0].dev), map[]) && (forall o :: o in q.mem <==> o in m.objs) && SameObjects(m.objs, m.objs)
    requires CopyReady(devs, m.objs, q, m.queue[0], source)
    requires !Located(m.objs, m.queue[0].op.src, Dev(m.queue[0].dev)) ==> source != Dev(m.queue[0].dev)
    requires Careful(devs, m, ResolveCopyFrom(devs, m, near, source))
    ensures Inv(devs, ResolveCopyFrom(devs, m, near, source), q)
  {
    hide Careful;
    hide Harmless;
    hide Waiting;
    hide Running;
    hide Matched;
    hide ObjectOk;
    hide ObjectsOk;
    hide Tracked;
    hide AllTracked;
    hide Submit;
    hide CommandOk;
    hide SourceOk;
    hide CopyPattern;
    hide NearestOk;
    var c, objs := m.queue[0], m.objs;
    var d, s, t := Dev(c.dev), c.op.src, c.op.dst;
    var here := WholeObject(objs, t, c.op.off, c.op.count) || Located(objs, t, d);
    var objs' := if here then objs else AddLatest(objs, t, d);
    var clones: map<nat, Clone> := if here then map[] else map[t := Ordered(near(t))];
    if !here { LocateKeeps(devs, objs, q, d, t, near); }
    KeysOf(objs', q, d, clones);
    var p := CopyPattern(devs, source, c.dev);
    var fetch := Feeding(p, source);
    SourceKept(objs[s], objs'[s], q.mem[s], d, c.op.from, c.op.count, fetch, source);
    if here && !p.ReadThenWrite? {
      SubmitsHarmless(devs, m, fetch, source);
      SubmitKeeps(devs, m, q, objs', fetch, source);
    } else {
      RefuseKeeps(devs, m, q, objs', true, clones, fetch, source);
    }
  }

  lemma RangesOk(devs: seq<Device>, objs: Objects, c: Command)
    requires CommandOk(devs, objs, c)
    ensures c.op.Read? ==> c.op.off + c.op.count <= objs[c.op.obj].size
    ensures c.op.Write? || c.op.Fill? ==> c.op.off + |c.op.data| <= objs[c.op.obj].size
    ensures c.op.Copy? ==> c.op.from + c.op.count <= objs[c.op.src].size && c.op.off + c.op.count <= objs[c.op.dst].size
  {}

  lemma SourceFound(devs: seq<Device>, objs: Objects, q: Memory, c: Command, near: nat -> Loc)
    requires c.op.Copy? && c.dev < |devs| && ObjectsOk(devs, objs) && AllTracked(objs, q, Dev(c.dev), map[])
    requires CommandOk(devs, objs, c) && NearestOk(devs, objs, near)
    requires c.op.src in objs && c.op.src in q.mem && (q.mem[c.op.src].Some? ==> |q.mem[c.op.src].value| == objs[c.op.src].size)
    ensures var d, s := Dev(c.dev), c.op.src;
            var source := if Located(objs, s, d) then d else near(s);
            Known(devs, source) && CopyReady(devs, objs, q, c, source) && (!Located(objs, s, d) ==> source != d)
  {
    hide *;
    var d, s := Dev(c.dev), c.op.src;
    NearKnown(devs, objs, near, s);
    TrackedAt(objs, q, d, map[], s);
    RangesOk(devs, objs, c);
    ObjectAt(devs, objs, s);
    CopySource(devs, objs[s], q.mem[s], c.dev, s, near(s), c.op.from, c.op.count);
    CopyReadyFrom(devs, objs, q, c, near(s));
  }

  lemma ObjectAt(devs: seq<Device>, objs: Objects, o: nat)
    requires ObjectsOk(devs, objs) && o in objs
    ensures ObjectOk(devs, objs[o])
  {
    hide ObjectOk;
  }

  lemma CopyReadyFrom(devs: seq<Device>, objs: Objects, q: Memory, c: Command, near: Loc)
    requires c.op.Copy? && c.dev < |devs| && c.op.src in objs && c.op.src in q.mem
    requires var d, ob := Dev(c.dev), objs[c.op.src];
             var source := if d in ob.latest || ob.latest == {} then d else near;
             && Known(devs, source) && (!(d in ob.latest || ob.latest == {}) ==> source != d)
             && SourceOk(ob, q.mem[c.op.src], d, c.op.from, c.op.count, Feeding(CopyPattern(devs, source, c.dev), source), source)
    ensures var d, s := Dev(c.dev), c.op.src;
            var source := if Located(objs, s, d) then d else near;
            Known(devs, source) && CopyReady(devs, objs, q, c, source) && (!Located(objs, s, d) ==> source != d)
  {
    hide SourceOk;
    hide CopyPattern;
    hide Feeding;
  }

  lemma ResolveCopyIs(devs: seq<Device>, m: Machine, near: nat -> Loc)
    requires Peeked(m) && m.queue[0].dev < |devs| && Names(m.objs, m.queue[0].op) && m.queue[0].op.Copy? && !m.head.resolved
    requires m.queue[0].op.src in m.objs && forall o :: Known(devs, near(o))
    requires Known(devs, Dev(m.queue[0].dev))
    ensures m.head.Resolving?
    ensures var s, d := m.queue[0].op.src, Dev(m.queue[0].dev);
            Resolve(devs, m, near) ==
            if !Located(m.objs, s, d) && near(s) == Host then Refuse(m, AddLatest(m.objs, s, d), false, map[s := Ordered(Host)], NoFetch, d)
            else ResolveCopyFrom(devs, m, near, if Located(m.objs, s, d) then d else near(s))
  {
    hide Submit;
    hide ResolveCopyFrom;
  }

  lemma CopyNamed(objs: Objects, c: Command)
    requires Names(objs, c.op) && c.op.Copy?
    ensures c.op.src in objs
    ensures var objs' := AddLatest(objs, c.op.src, Dev(c.dev)); c.op.src in objs' && Names(objs', c.op)
  {}

  lemma ResolveCopy(devs: seq<Device>, m: Machine, q: Memory, near: nat -> Loc)
    requires Waiting(devs, m, q) && Peeked(m) && Names(m.objs, m.queue[0].op) && m.queue[0].op.Copy?
    requires !m.head.resolved && NearestOk(devs, m.objs, near) && m.queue[0].dev < |devs| && Careful(devs, m, Resolve(devs, m, near))
    ensures Inv(devs, Resolve(devs, m, near), q)
  {
    hide *;
    PeekedParts(m);
    WaitingParts(devs, m, q);
    var c, objs := m.queue[0], m.objs;
    var d, s := Dev(c.dev), c.op.src;
    CopyNamed(objs, c);
    NearPlaces(devs, objs, near);
    ResolveCopyIs(devs, m, near);
    SourceFound(devs, objs, q, c, near);
    if !Located(objs, s, d) && near(s) == Host {
      LocateKeeps(devs, objs, q, d, s, near);
      RefuseKeeps(devs, m, q, AddLatest(objs, s, d), false, map[s := Ordered(Host)], NoFetch, d);
      IsInv(devs, Refuse(m, AddLatest(objs, s, d), false, map[s := Ordered(Host)], NoFetch, d), q);
    } else {
      CopyFromKeeps(devs, m, q, near, if Located(objs, s, d) then d else near(s));
    }
  }

  /** One call of ResolveConsistency. */
  lemma ResolveKeeps(devs: seq<Device>, m: Machine, q: Memory, near: nat -> Loc)
    requires Waiting(devs, m, q) && Peeked(m) && Names(m.objs, m.queue[0].op)
    requires NearestOk(devs, m.objs, near) && m.queue[0].dev < |devs| && Careful(devs, m, Resolve(devs, m, near))
    ensures Inv(devs, Resolve(devs, m, near), q)
  {
    hide Waiting;
    hide Running;
    hide Resolve;
    hide Careful;
    hide NearestOk;
    if m.head.resolved {
      ResolveAgain(devs, m, q, near);
    } else if m.queue[0].op.Kernel? {
      ResolveKernel(devs, m, q, near);
    } else if m.queue[0].op.Read? {
      ResolveRead(devs, m, q, near);
    } else if m.queue[0].op.Write? {
      ResolveWrite(devs, m, q, near);
    } else if m.queue[0].op.Fill? {
      ResolveFill(devs, m, q, near);
    } else {
      ResolveCopy(devs, m, q, near);
    }
  }

  /** A clone is ordered only of an object that the command names and does not just
      overwrite, that some place has the latest contents of but not its device; and from
      the nearest such place. */
  lemma OnlyNeeded(devs: seq<Device>, m: Machine, near: nat -> Loc, o: nat)
    requires Peeked(m) && m.queue[0].dev < |devs| && Names(m.objs, m.queue[0].op) && (forall o :: Known(devs, near(o)))
    ensures var n, c := Resolve(devs, m, near), m.queue[0];
            n.head.Resolving? && o in n.head.clones ==>
              && o in Touched(c.op) && o in m.objs && m.objs[o].latest != {} && Dev(c.dev) !in m.objs[o].latest
              && n.head.clones[o] == Ordered(near(o)) && (!Overwrites(m.objs, c.op, o) || (c.op.Copy? && o == c.op.src))
  {
    hide LocateAll;
    hide UpdateAll;
    hide CopyPattern;
    hide Known;
    var c := m.queue[0];
    if c.op.Kernel? && o in m.objs { LocateAllIs(m.objs, c.op.args, Dev(c.dev), near, o); }
  }

  /** A command is never submitted before a read it has in its wait list. */
  lemma AwaitedFirst(devs: seq<Device>, m: Machine, near: nat -> Loc)
    requires Peeked(m) && m.queue[0].dev < |devs| && Names(m.objs, m.queue[0].op) && (forall o :: Known(devs, near(o)))
    ensures var n := Resolve(devs, m, near); n.head.Submitted? && n.head.fetch.Wanted? ==> !n.head.fetch.awaited
  {
    hide LocateAll;
    hide UpdateAll;
    hide CopyPattern;
    hide Known;
  }
}
