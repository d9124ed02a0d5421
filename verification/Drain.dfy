/** ResolveConsistency refuses a command at most twice, and every queue drains. */
module Drain {
  import opened Devices
  import opened Coherence
  import opened Sequential
  import opened OneMemory
  import opened Runs

  /** How often the head can have been refused: once, or twice for a copy whose source
      only the host had. */
  ghost predicate Bounded(m: Machine) {
    m.head.Resolving? && m.queue != [] ==>
      var c, h := m.queue[0], m.head;
      if h.resolved then h.refusals <= if c.op.Copy? then 2 else 1
      else h.refusals == 0 || (h.refusals == 1 && c.op.Copy? && c.op.src in m.objs && Dev(c.dev) in m.objs[c.op.src].latest)
  }

  /** Calls of ResolveConsistency the head can still need, and the run itself. */
  function Rank(m: Machine): nat {
    match m.head
    case Resolving(resolved, refusals, _, _, _) => if resolved then 1 else if refusals > 0 then 2 else 3
    case Submitted(_, _) => 0
  }

  /** A call of ResolveConsistency keeps the bound and brings the head forward. */
  lemma ResolveBounded(devs: seq<Device>, m: Machine, near: nat -> Loc)
    requires Bounded(m) && Peeked(m) && m.queue[0].dev < |devs| && Names(m.objs, m.queue[0].op) && forall o :: Known(devs, near(o))
    ensures var n := Resolve(devs, m, near); Bounded(n) && Rank(n) < Rank(m) && n.queue == m.queue
  {
    hide Submit;
    hide CopyPattern;
    hide LocateAll;
    var c, objs := m.queue[0], m.objs;
    var d := Dev(c.dev);
    forall fetch, source ensures var n := Submit(m, objs, fetch, source); n.queue == m.queue && n.head.Submitted? {
      SubmitSizes(m, objs, fetch, source);
    }
    if c.op.Kernel? {
      LocateAllSizes(objs, c.op.args, d, near);
      SubmitSizes(m, LocateAll(objs, map[], c.op.args, d, near).0, NoFetch, d);
    } else if c.op.Copy? {
      forall fetch, source ensures var n := Submit(m, AddLatest(objs, c.op.dst, d), fetch, source); n.queue == m.queue && n.head.Submitted? {
        SubmitSizes(m, AddLatest(objs, c.op.dst, d), fetch, source);
      }
    }
  }

  ghost function CarriedKeys(clones: map<nat, Coherence.Clone>): set<nat> { set o | o in clones && clones[o].Carried? }

  /** Halves of clones and reads still to come. */
  ghost function Pending(m: Machine): nat {
    (if m.head.fetch.Wanted? then 1 else 0) +
    if m.head.Resolving? then Halves(m.head.clones) else 0
  }

  lemma CarriedBound(clones: map<nat, Coherence.Clone>)
    ensures |CarriedKeys(clones)| <= |clones|
  {
    assert CarriedKeys(clones) <= clones.Keys;
    SubsetSize(CarriedKeys(clones), clones.Keys);
  }

  lemma {:induction false} SubsetSize(a: set<nat>, b: set<nat>)
    requires a <= b
    ensures |a| <= |b|
  {
    if a != {} {
      var x :| x in a;
      SubsetSize(a - {x}, b - {x});
    }
  }

  ghost function Halves(clones: map<nat, Coherence.Clone>): nat {
    CarriedBound(clones);
    2 * |clones| - |CarriedKeys(clones)|
  }

  /** Half a clone is one half less to come. */
  lemma HalvesLess(clones: map<nat, Coherence.Clone>, rest: map<nat, Coherence.Clone>, o: nat)
    requires o in clones && forall p | p in clones && p != o :: p in rest && rest[p] == clones[p]
    requires if clones[o].Ordered? then rest.Keys == clones.Keys && rest[o].Carried? else rest.Keys == clones.Keys - {o}
    ensures Halves(rest) < Halves(clones)
  {
    CarriedBound(clones);
    CarriedBound(rest);
    if clones[o].Ordered? {
      assert CarriedKeys(rest) == CarriedKeys(clones) + {o};
      assert |rest| == |rest.Keys| == |clones.Keys| == |clones|;
    } else {
      assert CarriedKeys(rest) == CarriedKeys(clones) - {o};
      assert |rest| == |rest.Keys| == |clones.Keys| - 1 == |clones| - 1;
    }
  }

  lemma CloneShrinks(devs: seq<Device>, m: Machine, o: nat)
    requires Cloning(devs, m, o)
    ensures var n := CloneStep(devs, m, o); Pending(n) < Pending(m) && Rank(n) == Rank(m) && n.queue == m.queue && (Bounded(m) ==> Bounded(n))
  {
    hide CarriedKeys;
    ClonedIs(devs, m.objs[o], m.head.clones[o], m.queue[0].dev);
    hide ClonedObject;
    HalvesLess(m.head.clones, CloneStep(devs, m, o).head.clones, o);
    hide Halves;
  }

  /** Every step shortens the queue, brings the head forward, or finishes part of what
      it waits for. */
  lemma StepDecreases(devs: seq<Device>, m: Machine, a: Action)
    requires Enabled(devs, m, a) && Bounded(m)
    ensures var n := Step(devs, m, a);
            && Bounded(n)
            && (|n.queue| < |m.queue| || (n.queue == m.queue && (Rank(n) < Rank(m) || (Rank(n) == Rank(m) && Pending(n) < Pending(m)))))
  {
    hide Resolve;
    hide Ok;
    hide NearestChoice;
    match a
    case Schedule(near) =>
      assert forall o :: Known(devs, near(o)) by { ChoiceKnown(devs, m, near); }
      ResolveBounded(devs, m, near);
    case Clone(o) => CloneShrinks(devs, m, o);
    case Fetch =>
    case Run => ExecuteShape(devs, m);
  }

  lemma ChoiceKnown(devs: seq<Device>, m: Machine, near: nat -> Loc)
    requires Enabled(devs, m, Schedule(near))
    ensures forall o :: Known(devs, near(o))
  {
    hide ObjectsOk;
  }

  lemma ExecuteShape(devs: seq<Device>, m: Machine)
    requires Executable(devs, m)
    ensures Execute(devs, m).queue == m.queue[1..] && Execute(devs, m).head == FRESH
  {
    hide Ok;
  }

  /** In a run from the start ResolveConsistency answers false at most once for a
      command, and at most twice for a copy. */
  lemma {:induction false} RefusedTwice(devs: seq<Device>, m: Machine, q: Memory, schedule: seq<Action>, m': Machine, q': Memory)
    requires Bounded(m) && Leads(devs, m, q, schedule, m', q')
    ensures Bounded(m')
    ensures m'.head.Resolving? && m'.queue != [] ==> m'.head.refusals <= if m'.queue[0].op.Copy? then 2 else 1
    decreases schedule
  {
    hide Enabled;
    hide Step;
    if schedule != [] {
      var a := schedule[0];
      var r :| Follows(m, q, a, r) && Leads(devs, Step(devs, m, a), r, schedule[1..], m', q');
      StepDecreases(devs, m, a);
      RefusedTwice(devs, Step(devs, m, a), r, schedule[1..], m', q');
    }
  }

  /** A nonempty set of places has a nearest one. */
  lemma {:induction false} NearestExists(devs: seq<Device>, n: nat, latest: set<Loc>) returns (l: Loc)
    requires n < |devs| && latest != {} && forall k | k in latest :: Known(devs, k)
    ensures Nearest(devs, n, latest, l)
    decreases |latest|
  {
    var first :| first in latest;
    var rest := latest - {first};
    l := first;
    if rest != {} {
      var k := NearestExists(devs, n, rest);
      if Distance(devs, n, k) < Distance(devs, n, l) { l := k; }
    }
    assert forall k | k in latest :: k == first || k in rest;
  }

  ghost predicate Choosable(devs: seq<Device>, objs: Objects, n: nat, o: nat, l: Loc)
    requires n < |devs|
  {
    Known(devs, l) && (o in objs && objs[o].latest != {} ==> (forall k | k in objs[o].latest :: Known(devs, k)) && Nearest(devs, n, objs[o].latest, l))
  }

  ghost function Choice(devs: seq<Device>, objs: Objects, n: nat, o: nat): (l: Loc)
    requires ObjectsOk(devs, objs) && n < |devs|
    ensures Choosable(devs, objs, n, o, l)
  {
    ChoiceAt(devs, objs, n, o);
    var l :| Choosable(devs, objs, n, o, l);
    l
  }

  lemma ChoiceAt(devs: seq<Device>, objs: Objects, n: nat, o: nat)
    requires ObjectsOk(devs, objs) && n < |devs|
    ensures exists l :: Choosable(devs, objs, n, o, l)
  {
    if o in objs && objs[o].latest != {} {
      assert ObjectOk(devs, objs[o]);
      var l := NearestExists(devs, n, objs[o].latest);
      assert Choosable(devs, objs, n, o, l);
    } else {
      assert Choosable(devs, objs, n, o, Host);
    }
  }

  /** GetNearestLatest always has an answer. */
  lemma ChoiceExists(devs: seq<Device>, objs: Objects, n: nat) returns (near: nat -> Loc)
    requires ObjectsOk(devs, objs) && n < |devs|
    ensures NearestChoice(devs, objs, n, near)
  {
    near := (o: nat) => Choice(devs, objs, n, o);
    hide ObjectOk;
    hide Nearest;
    hide Choice;
  }

  /** While commands are queued, something can happen: no clone, read or call of
      ResolveConsistency waits for another queue. */
  lemma Progress(devs: seq<Device>, m: Machine, q: Memory) returns (a: Action)
    requires Inv(devs, m, q) && m.queue != []
    ensures Enabled(devs, m, a)
  {
    hide Waiting;
    hide Running;
    hide NearestChoice;
    hide Executable;
    hide Findable;
    hide CommandOk;
    hide ObjectsOk;
    hide Names;
    InvPhase(devs, m, q);
    PhaseParts(devs, m, q);
    if m.head.fetch.Wanted? {
      FetchKeeps(devs, m, q);
      a := Fetch;
    } else if m.head.Submitted? {
      FindableAll(devs, m, q);
      a := Run;
    } else if m.head.clones != map[] {
      var o :| o in m.head.clones;
      CloneKeeps(devs, m, q, o);
      a := Clone(o);
    } else {
      var near := ChoiceExists(devs, m.objs, m.queue[0].dev);
      a := Schedule(near);
    }
  }

  lemma PhaseParts(devs: seq<Device>, m: Machine, q: Memory)
    requires Inv(devs, m, q) && m.queue != []
    ensures Ok(devs, m) && ObjectsOk(devs, m.objs) && m.queue[0].dev < |devs| && Names(m.objs, m.queue[0].op)
    ensures m.head.Submitted? && !m.head.fetch.Wanted? ==> Executable(devs, m)
  {
    hide Waiting;
    hide Running;
    hide Executable;
    InvPhase(devs, m, q);
    if m.head.Resolving? {
      WaitingParts(devs, m, q);
      MatchedOk(devs, m, q);
    } else {
      RunningParts(devs, m, q);
    }
  }

  lemma MatchedOk(devs: seq<Device>, m: Machine, q: Memory)
    requires Matched(devs, m, q)
    ensures Ok(devs, m)
  {}

  /** Every queue can be brought to its end, and as every step decreases, every run that
      goes on as long as it can gets there. */
  lemma {:induction false} Drains(devs: seq<Device>, m: Machine, q: Memory) returns (schedule: seq<Action>, m': Machine, q': Memory)
    requires Inv(devs, m, q) && AllSound(m) && Bounded(m)
    ensures Leads(devs, m, q, schedule, m', q') && m'.queue == [] && Inv(devs, m', q')
    decreases |m.queue|, Rank(m), Pending(m)
  {
    hide Inv;
    hide AllSound;
    hide Bounded;
    hide Enabled;
    hide Heeds;
    hide Step;
    hide Rank;
    hide Pending;
    if m.queue == [] {
      schedule, m', q' := [], m, q;
    } else {
      var a := Progress(devs, m, q);
      SoundHeeds(devs, m, a);
      var r := StepKeeps(devs, m, q, a);
      StepDecreases(devs, m, a);
      var rest;
      rest, m', q' := Drains(devs, Step(devs, m, a), r);
      schedule := [a] + rest;
      assert schedule[1..] == rest;
    }
  }
}
