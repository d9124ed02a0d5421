/** Whole runs of one in-order queue under any timing of scheduler, clones and
    devices. */
module Runs {
  import opened Wrappers
  import opened Devices
  import opened Coherence
  import opened Sequential
  import opened OneMemory

  /** The scheduler takes up the head, with the nearest latest places it finds; half a
      clone of object o; the read that feeds a copy; the device runs the command. */
  datatype Action = Schedule(near: nat -> Loc) | Clone(o: nat) | Fetch | Run

  ghost predicate NearestChoice(devs: seq<Device>, objs: Objects, n: nat, near: nat -> Loc)
    requires ObjectsOk(devs, objs) && n < |devs|
  {
    (forall o :: Known(devs, near(o))) &&
    forall o | o in objs && objs[o].latest != {} :: ObjectOk(devs, objs[o]) && Nearest(devs, n, objs[o].latest, near(o))
  }

  ghost predicate Enabled(devs: seq<Device>, m: Machine, a: Action) {
    && Ok(devs, m) && m.queue != [] && m.queue[0].dev < |devs| && Names(m.objs, m.queue[0].op)
    && match a
       case Schedule(near) => Peeked(m) && NearestChoice(devs, m.objs, m.queue[0].dev, near)
       case Clone(o) => Cloning(devs, m, o)
       case Fetch =>
         && m.queue[0].op.Copy? && m.head.fetch.Wanted?
         && var c := m.queue[0].op;
            m.head.fetch.from in m.objs[c.src].copies && c.from + c.count <= |m.objs[c.src].copies[m.head.fetch.from]|
       case Run => Executable(devs, m) && Findable(m)
  }

  ghost function Step(devs: seq<Device>, m: Machine, a: Action): Machine
    requires Enabled(devs, m, a)
  {
    match a
    case Schedule(near) => Resolve(devs, m, near)
    case Clone(o) => CloneStep(devs, m, o)
    case Fetch => FetchStep(m)
    case Run => Execute(devs, m)
  }

  /** The one memory moves when a command runs. */
  ghost predicate Follows(m: Machine, q: Memory, a: Action, q': Memory) {
    if a.Run? then Findable(m) && Performs(q, m.queue[0].op, Found(m)) && q' == Apply(q, m.queue[0].op, Found(m)) else q' == q
  }

  /** Commands that keep to the rules of Sound. */
  ghost predicate AllSound(m: Machine) {
    forall i :: 0 <= i < |m.queue| ==> Names(m.objs, m.queue[i].op) && Sound(m.objs, m.queue[i].op)
  }

  lemma AllSoundKept(m: Machine, m': Machine)
    requires AllSound(m) && SameSizes(m.objs, m'.objs) && (m'.queue == m.queue || (m.queue != [] && m'.queue == m.queue[1..]))
    ensures AllSound(m')
  {
    hide Sound;
    hide Names;
    forall i | 0 <= i < |m'.queue| ensures Names(m'.objs, m'.queue[i].op) && Sound(m'.objs, m'.queue[i].op) {
      var j := if m'.queue == m.queue then i else i + 1;
      assert m'.queue[i] == m.queue[j];
      SoundKept(m.objs, m'.objs, m.queue[j].op);
    }
  }

  lemma OutcomeWaiting(devs: seq<Device>, m: Machine, q: Memory, n: Machine, q': Memory)
    requires Ok(devs, m) && Outcome(devs, m, q, n, q')
    ensures Waiting(devs, n, q')
  {
    hide CommandOk;
    hide ObjectOk;
    assert ObjectsOk(devs, n.objs);
    forall i | 0 <= i < |n.queue| ensures CommandOk(devs, n.objs, n.queue[i]) {
      assert n.queue[i] == m.queue[i + 1];
      CommandKept(devs, m.objs, n.objs, n.queue[i]);
    }
    forall o | o in n.objs ensures Tracked(n.objs[o], q'.mem[o], HeadDev(n), map[], o) {
      assert ObjectSettled(devs, n.objs[o], q'.mem[o], o);
    }
    if n.queue != [] { CommandNames(devs, n.objs, n.queue[0]); }
  }

  lemma RunStep(devs: seq<Device>, m: Machine, q: Memory)
    requires m.queue != [] && Names(m.objs, m.queue[0].op) && Running(devs, m, q) && !m.head.fetch.Wanted?
    ensures Executes(devs, m, q)
  {
    hide Running;
    hide Executes;
    if m.queue[0].op.Kernel? {
      KernelSettles(devs, m, q);
    } else if m.queue[0].op.Read? {
      ReadSettles(devs, m, q);
    } else if m.queue[0].op.Write? {
      WriteSettles(devs, m, q);
    } else if m.queue[0].op.Fill? {
      FillSettles(devs, m, q);
    } else {
      CopySettles(devs, m, q);
    }
  }

  lemma SubmitSizes(m: Machine, objs: Objects, fetch: Fetch, source: Loc)
    requires m.queue != [] && objs.Keys == m.objs.Keys && Names(objs, m.queue[0].op) && SameSizes(m.objs, objs)
    ensures var n := Submit(m, objs, fetch, source); SameSizes(m.objs, n.objs) && n.queue == m.queue && n.head.Submitted?
  {
    hide Submit;
    SubmitIs(m, objs, fetch, source);
    hide Touched;
  }

  lemma LocateAllSizes(objs: Objects, args: seq<nat>, d: Loc, near: nat -> Loc)
    requires forall a | a in args :: a in objs
    ensures SameSizes(objs, LocateAll(objs, map[], args, d, near).0)
  {
    hide LocateAll;
    forall o | o in objs ensures LocateAll(objs, map[], args, d, near).0[o].size == objs[o].size && LocateAll(objs, map[], args, d, near).0[o].flags == objs[o].flags {
      LocateAllIs(objs, args, d, near, o);
    }
  }

  lemma AddLatestSizes(objs: Objects, o: nat, l: Loc)
    requires o in objs
    ensures SameSizes(objs, AddLatest(objs, o, l))
  {}

  /** ResolveConsistency changes no sizes and leaves the queue as it is. */
  lemma ResolveSizes(devs: seq<Device>, m: Machine, near: nat -> Loc)
    requires Peeked(m) && m.queue[0].dev < |devs| && Names(m.objs, m.queue[0].op) && forall o :: Known(devs, near(o))
    ensures var n := Resolve(devs, m, near); SameSizes(m.objs, n.objs) && n.queue == m.queue
  {
    hide Submit;
    hide SameSizes;
    hide AddLatest;
    hide LocateAll;
    hide ResolveCopyFrom;
    var c, objs := m.queue[0], m.objs;
    var d := Dev(c.dev);
    SameSelf(objs);
    if m.head.resolved {
      SubmitSizes(m, objs, m.head.fetch, m.head.source);
    } else if c.op.Kernel? {
      LocateAllSizes(objs, c.op.args, d, near);
      SubmitSizes(m, LocateAll(objs, map[], c.op.args, d, near).0, NoFetch, d);
    } else if c.op.Copy? {
      AddLatestSizes(objs, c.op.src, d);
      if Located(objs, c.op.src, d) { ResolveCopyFromSizes(devs, m, near, d); } else { ResolveCopyFromSizes(devs, m, near, near(c.op.src)); }
    } else {
      AddLatestSizes(objs, c.op.obj, d);
      SubmitSizes(m, objs, NoFetch, d);
      if c.op.Read? { SubmitSizes(m, objs, NoFetch, near(c.op.obj)); }
    }
  }

  lemma SameSelf(objs: Objects)
    ensures SameSizes(objs, objs)
  {}

  lemma ResolveCopyFromSizes(devs: seq<Device>, m: Machine, near: nat -> Loc, source: Loc)
    requires Peeked(m) && m.queue[0].dev < |devs| && m.queue[0].op.Copy? && Names(m.objs, m.queue[0].op) && Known(devs, source)
    ensures var n := ResolveCopyFrom(devs, m, near, source); SameSizes(m.objs, n.objs) && n.queue == m.queue
  {
    hide Submit;
    hide CopyPattern;
    hide Feeding;
    SubmitSizes(m, m.objs, Feeding(CopyPattern(devs, source, m.queue[0].dev), source), source);
  }

  lemma NearestIsOk(devs: seq<Device>, objs: Objects, n: nat, near: nat -> Loc)
    requires ObjectsOk(devs, objs) && n < |devs| && NearestChoice(devs, objs, n, near)
    ensures NearestOk(devs, objs, near)
  {}

  /** If the step submits a command, that is harmless. */
  ghost predicate Heeds(devs: seq<Device>, m: Machine, a: Action)
    requires Enabled(devs, m, a)
  {
    a.Schedule? ==> Careful(devs, m, Step(devs, m, a))
  }

  /** Every step that heeds what may be submitted keeps the invariant, and the one memory
      can follow it. */
  lemma StepKeeps(devs: seq<Device>, m: Machine, q: Memory, a: Action) returns (q': Memory)
    requires Inv(devs, m, q) && Enabled(devs, m, a) && Heeds(devs, m, a)
    ensures Follows(m, q, a, q') && Inv(devs, Step(devs, m, a), q')
  {
    hide Waiting;
    hide Running;
    hide Careful;
    hide Cloning;
    hide Executes;
    hide Resolve;
    hide Execute;
    hide CommandOk;
    hide NearestChoice;
    hide ObjectsOk;
    q' := q;
    match a
    case Schedule(near) =>
      InvPhase(devs, m, q);
      NearestIsOk(devs, m.objs, m.queue[0].dev, near);
      ResolveKeeps(devs, m, q, near);
    case Clone(o) =>
      InvPhase(devs, m, q);
      CloningParts(devs, m, o);
      CloneKeeps(devs, m, q, o);
      IsWaiting(devs, CloneStep(devs, m, o), q);
    case Fetch =>
      FetchKeeps(devs, m, q);
    case Run =>
      InvPhase(devs, m, q);
      RunStep(devs, m, q);
      q' := RunFollows(devs, m, q);
  }

  lemma CloningParts(devs: seq<Device>, m: Machine, o: nat)
    requires Cloning(devs, m, o)
    ensures m.queue != [] && m.head.Resolving? && o in m.head.clones && o in m.objs
  {}

  lemma WrittenSizes(devs: seq<Device>, ob: Object, n: nat, off: nat, data: Data)
    requires ObjectOk(devs, ob) && n < |devs| && off + |data| <= ob.size
    ensures var ob' := Written(devs, ob, n, off, data); ob'.size == ob.size && ob'.flags == ob.flags
  {}

  lemma ExecuteSizes(devs: seq<Device>, m: Machine)
    requires Executable(devs, m)
    ensures var n := Execute(devs, m); SameSizes(m.objs, n.objs) && n.queue == m.queue[1..]
  {
    hide Execute;
    hide Ok;
    match m.queue[0].op
    case Kernel(_, _) => ExecuteKernelSizes(devs, m);
    case Read(_, _, _) => ExecuteReadSizes(devs, m);
    case Write(_, _, _) => ExecuteWriteSizes(devs, m);
    case Fill(_, _, _) => ExecuteFillSizes(devs, m);
    case Copy(_, _, _, _, _) => if m.head.fetch.Fetched? { ExecuteFetchedSizes(devs, m); } else { ExecuteCopySizes(devs, m); }
  }

  lemma HeadOk(devs: seq<Device>, m: Machine)
    requires Executable(devs, m)
    ensures m.queue[0].dev < |devs| && CommandOk(devs, m.objs, m.queue[0]) && Names(m.objs, m.queue[0].op)
    ensures forall a | a in Touched(m.queue[0].op) :: a in m.objs && ObjectOk(devs, m.objs[a])
  {
    assert CommandOk(devs, m.objs, m.queue[0]);
    CommandNames(devs, m.objs, m.queue[0]);
    hide CommandOk;
    hide ObjectOk;
  }

  /** A command other than a kernel changes the copies and the latest set of at most one
      object. */
  ghost predicate OneChanged(objs: Objects, objs': Objects, o: nat) {
    o in objs && o in objs' && objs' == objs[o := objs'[o]] && objs'[o].size == objs[o].size && objs'[o].flags == objs[o].flags
  }

  lemma OneChangedSizes(objs: Objects, objs': Objects, o: nat)
    requires OneChanged(objs, objs', o)
    ensures SameSizes(objs, objs')
  {}

  lemma ExecuteReadSizes(devs: seq<Device>, m: Machine)
    requires Executable(devs, m) && m.queue[0].op.Read?
    ensures var n := Execute(devs, m); SameSizes(m.objs, n.objs) && n.queue == m.queue[1..]
  {
    hide Ok;
  }

  lemma ExecuteFillSizes(devs: seq<Device>, m: Machine)
    requires Executable(devs, m) && m.queue[0].op.Fill?
    ensures var n := Execute(devs, m); SameSizes(m.objs, n.objs) && n.queue == m.queue[1..]
  {
    HeadOk(devs, m);
    assert m.queue[0].op.obj in Touched(m.queue[0].op);
    hide Ok;
    hide Splice;
    hide SameSizes;
    hide ObjectOk;
    hide CommandOk;
    OneChangedSizes(m.objs, Execute(devs, m).objs, m.queue[0].op.obj);
  }

  lemma ExecuteCopySizes(devs: seq<Device>, m: Machine)
    requires Executable(devs, m) && m.queue[0].op.Copy? && !m.head.fetch.Fetched?
    ensures var n := Execute(devs, m); SameSizes(m.objs, n.objs) && n.queue == m.queue[1..]
  {
    HeadOk(devs, m);
    assert m.queue[0].op.dst in Touched(m.queue[0].op);
    hide Ok;
    hide Splice;
    hide SameSizes;
    hide ObjectOk;
    hide CommandOk;
    OneChangedSizes(m.objs, Execute(devs, m).objs, m.queue[0].op.dst);
  }

  lemma ExecuteWriteSizes(devs: seq<Device>, m: Machine)
    requires Executable(devs, m) && m.queue[0].op.Write?
    ensures var n := Execute(devs, m); SameSizes(m.objs, n.objs) && n.queue == m.queue[1..]
  {
    HeadOk(devs, m);
    RangesOk(devs, m.objs, m.queue[0]);
    var c := m.queue[0];
    assert c.op.obj in Touched(c.op);
    hide Ok;
    hide SameSizes;
    hide ObjectOk;
    hide CommandOk;
    WrittenSizes(devs, m.objs[c.op.obj], c.dev, c.op.off, c.op.data);
    hide Written;
    OneChangedSizes(m.objs, Execute(devs, m).objs, c.op.obj);
  }

  lemma ExecuteFetchedSizes(devs: seq<Device>, m: Machine)
    requires Executable(devs, m) && m.queue[0].op.Copy? && m.head.fetch.Fetched?
    ensures var n := Execute(devs, m); SameSizes(m.objs, n.objs) && n.queue == m.queue[1..]
  {
    HeadOk(devs, m);
    RangesOk(devs, m.objs, m.queue[0]);
    var c := m.queue[0];
    assert c.op.dst in Touched(c.op);
    hide Ok;
    hide SameSizes;
    hide ObjectOk;
    hide CommandOk;
    WrittenSizes(devs, m.objs[c.op.dst], c.dev, c.op.off, m.head.fetch.data);
    hide Written;
    OneChangedSizes(m.objs, Execute(devs, m).objs, c.op.dst);
  }

  lemma ExecuteKernelSizes(devs: seq<Device>, m: Machine)
    requires Executable(devs, m) && m.queue[0].op.Kernel?
    ensures var n := Execute(devs, m); SameSizes(m.objs, n.objs) && n.queue == m.queue[1..]
  {
    hide Contents;
    hide Written;
    hide ObjectOk;
  }

  /** No step changes the size or the flags of an object. */
  lemma StepSizes(devs: seq<Device>, m: Machine, a: Action)
    requires Enabled(devs, m, a)
    ensures var n := Step(devs, m, a);
            SameSizes(m.objs, n.objs) && m.queue != [] && (n.queue == m.queue || n.queue == m.queue[1..])
  {
    hide Resolve;
    hide Execute;
    hide CommandOk;
    hide Cloning;
    hide ObjectsOk;
    match a
    case Schedule(near) => ResolveSizes(devs, m, near);
    case Clone(o) => CloneSizes(devs, m, o);
    case Fetch =>
    case Run => ExecuteSizes(devs, m);
  }

  /** Commands that are Sound can always be submitted. */
  lemma SoundHeeds(devs: seq<Device>, m: Machine, a: Action)
    requires AllSound(m) && Enabled(devs, m, a)
    ensures Heeds(devs, m, a) && AllSound(Step(devs, m, a))
  {
    StepSizes(devs, m, a);
    AllSoundKept(m, Step(devs, m, a));
    hide Step;
    hide Enabled;
    hide Sound;
    hide Harmless;
    assert m.queue != [] && Names(m.objs, m.queue[0].op) && Sound(m.objs, m.queue[0].op);
    if a.Schedule? && Step(devs, m, a).head.Submitted? {
      SoundHarmless(devs, m.objs, m.queue[0], Step(devs, m, a).head.fetch);
    }
  }

  lemma InvPhase(devs: seq<Device>, m: Machine, q: Memory)
    requires Inv(devs, m, q)
    ensures m.head.Resolving? ==> Waiting(devs, m, q)
    ensures m.head.Submitted? ==> Running(devs, m, q)
    ensures q.log == m.log
  {
    hide AllTracked;
    hide Prepared;
    hide Supplied;
    hide Ok;
  }

  lemma IsWaiting(devs: seq<Device>, m: Machine, q: Memory)
    requires Waiting(devs, m, q)
    ensures Inv(devs, m, q)
  {
    hide Waiting;
  }

  lemma CloneSizes(devs: seq<Device>, m: Machine, o: nat)
    requires Cloning(devs, m, o)
    ensures SameSizes(m.objs, CloneStep(devs, m, o).objs) && CloneStep(devs, m, o).queue == m.queue
  {
    ClonedIs(devs, m.objs[o], m.head.clones[o], m.queue[0].dev);
    hide ClonedObject;
  }

  lemma RunFollows(devs: seq<Device>, m: Machine, q: Memory) returns (q': Memory)
    requires Ok(devs, m) && Executes(devs, m, q)
    ensures Findable(m) && Performs(q, m.queue[0].op, Found(m)) && q' == Apply(q, m.queue[0].op, Found(m))
    ensures Executable(devs, m) && Inv(devs, Execute(devs, m), q') && SameSizes(m.objs, Execute(devs, m).objs)
    ensures Execute(devs, m).queue == m.queue[1..] && m.queue != []
  {
    hide Execute;
    hide Apply;
    hide Settled;
    hide Ok;
    hide Waiting;
    q' := Apply(q, m.queue[0].op, Found(m));
    OutcomeWaiting(devs, m, q, Execute(devs, m), q');
    IsWaiting(devs, Execute(devs, m), q');
  }

  /** The actions of the schedule lead from m to m', and take the memory from q to q'. */
  ghost predicate Leads(devs: seq<Device>, m: Machine, q: Memory, schedule: seq<Action>, m': Machine, q': Memory)
    decreases schedule
  {
    if schedule == [] then m == m' && q == q' else
      && Enabled(devs, m, schedule[0])
      && exists r :: Follows(m, q, schedule[0], r) && Leads(devs, Step(devs, m, schedule[0]), r, schedule[1..], m', q')
  }

  /** Nothing has run; an object is undefined, or the host has its contents. */
  ghost predicate Initial(devs: seq<Device>, m: Machine, q: Memory) {
    && Ok(devs, m) && m.head == FRESH && m.log == [] && q.log == []
    && (forall o :: o in q.mem <==> o in m.objs)
    && forall o | o in m.objs :: Untouched(m.objs[o], q.mem[o])
  }

  ghost predicate Untouched(ob: Object, v: Option<Data>) {
    && Host in ob.copies
    && if v.None? then ob.latest == {} else ob.latest == {Host} && v.value == ob.copies[Host]
  }

  lemma UntouchedTracked(devs: seq<Device>, ob: Object, v: Option<Data>, d: Loc, o: nat)
    requires Untouched(ob, v) && ObjectOk(devs, ob)
    ensures Tracked(ob, v, d, map[], o) && (v.Some? ==> |v.value| == ob.size)
  {}

  lemma InitialWaits(devs: seq<Device>, m: Machine, q: Memory)
    requires Initial(devs, m, q)
    ensures Waiting(devs, m, q)
  {
    hide CommandOk;
    hide ObjectOk;
    hide Untouched;
    hide Tracked;
    hide Names;
    forall o | o in m.objs ensures Tracked(m.objs[o], q.mem[o], HeadDev(m), map[], o) && (q.mem[o].Some? ==> |q.mem[o].value| == m.objs[o].size) {
      UntouchedTracked(devs, m.objs[o], q.mem[o], HeadDev(m), o);
    }
    if m.queue != [] {
      assert CommandOk(devs, m.objs, m.queue[0]);
      CommandNames(devs, m.objs, m.queue[0]);
    }
  }

  /** Whatever the run submits is harmless when it does. */
  ghost predicate HeedingRun(devs: seq<Device>, m: Machine, schedule: seq<Action>)
    decreases schedule
  {
    schedule != [] ==>
      Enabled(devs, m, schedule[0]) && Heeds(devs, m, schedule[0]) && HeedingRun(devs, Step(devs, m, schedule[0]), schedule[1..])
  }

  lemma {:induction false} RunKeeps(devs: seq<Device>, m: Machine, q: Memory, schedule: seq<Action>, m': Machine, q': Memory)
    requires Inv(devs, m, q) && HeedingRun(devs, m, schedule) && Leads(devs, m, q, schedule, m', q')
    ensures Inv(devs, m', q')
    decreases schedule
  {
    hide Inv;
    hide Heeds;
    hide Enabled;
    hide Step;
    if schedule != [] {
      var a := schedule[0];
      var r :| Follows(m, q, a, r) && Leads(devs, Step(devs, m, a), r, schedule[1..], m', q');
      var r' := StepKeeps(devs, m, q, a);
      assert r == r';
      RunKeeps(devs, Step(devs, m, a), r, schedule[1..], m', q');
    }
  }

  /** Coherence: whatever the timing and the devices of the commands, every read and
      every kernel has seen what it would have seen in one memory used in the order of
      the queue; and between commands every latest place has the current contents. */
  lemma OneMemorySeen(devs: seq<Device>, m: Machine, q: Memory, schedule: seq<Action>, m': Machine, q': Memory)
    requires Initial(devs, m, q) && HeedingRun(devs, m, schedule) && Leads(devs, m, q, schedule, m', q')
    ensures m'.log == q'.log
    ensures m'.head == FRESH ==> forall o, l | o in m'.objs && l in m'.objs[o].latest ::
              o in q'.mem && q'.mem[o].Some? && l in m'.objs[o].copies && m'.objs[o].copies[l] == q'.mem[o].value
  {
    InitialWaits(devs, m, q);
    hide HeedingRun;
    hide Leads;
    hide Running;
    RunKeeps(devs, m, q, schedule, m', q');
    InvPhase(devs, m', q');
    hide Waiting;
    hide Inv;
    hide Initial;
    forall o, l | m'.head == FRESH && o in m'.objs && l in m'.objs[o].latest
      ensures o in q'.mem && q'.mem[o].Some? && l in m'.objs[o].copies && m'.objs[o].copies[l] == q'.mem[o].value
    {
      FreshTracked(devs, m', q', o, l);
    }
  }

  /** A program of sound commands has only runs of that kind. */
  lemma {:induction false} SoundRuns(devs: seq<Device>, m: Machine, q: Memory, schedule: seq<Action>, m': Machine, q': Memory)
    requires AllSound(m) && Leads(devs, m, q, schedule, m', q')
    ensures HeedingRun(devs, m, schedule)
    decreases schedule
  {
    hide AllSound;
    hide Heeds;
    hide Enabled;
    hide Step;
    if schedule != [] {
      var a := schedule[0];
      var r :| Follows(m, q, a, r) && Leads(devs, Step(devs, m, a), r, schedule[1..], m', q');
      SoundHeeds(devs, m, a);
      SoundRuns(devs, Step(devs, m, a), r, schedule[1..], m', q');
    }
  }

  lemma FreshTracked(devs: seq<Device>, m: Machine, q: Memory, o: nat, l: Loc)
    requires Waiting(devs, m, q) && m.head == FRESH && o in m.objs && l in m.objs[o].latest
    ensures o in q.mem && q.mem[o].Some? && l in m.objs[o].copies && m.objs[o].copies[l] == q.mem[o].value
  {
    hide Matched;
    hide Prepared;
    TrackedAt(m.objs, q, HeadDev(m), m.head.clones, o);
  }
}
