/** The issuer thread: it takes commands from the ready queues of its devices, starts and
    completes them, while other threads add and remove devices. */
module Issuers {
  import opened Filters

  /** RemoveDevice leaves a null pointer in the list. */
  datatype Slot = Gap | Dev(id: nat)

  datatype Job = Job(device: nat, command: nat)

  /** Where the thread is: not there yet, about to test thread_running_, about to test
      devices_updated_, at device k of target_devices, at running command k, or gone. */
  datatype Pc = Fresh | Top | Tested | Scan(k: nat) | Poll(k: nat) | Exited

  /** Where the caller of Stop is: thread_running_ is false from the first step on. */
  datatype Stopping = NotCalled | Walking | Joining | Joined

  /** submitted and started are what each device's ready queue has been given and has
      given up; done are the commands completed. */
  datatype Jobs = Jobs(
    ready: map<nat, seq<nat>>, submitted: map<nat, seq<nat>>, started: map<nat, seq<nat>>, running: seq<Job>, done: multiset<Job>)

  /** target is the thread's own copy of devices. waiting are the threads in RemoveDevice
      and the device each removes. crashed: a null pointer has been followed. */
  datatype State = State(
    devices: seq<Slot>, updated: bool, target: seq<nat>, pc: Pc, going: bool, waiting: map<nat, nat>, jobs: Jobs,
    stop: Stopping, crashed: bool)

  function At(m: map<nat, seq<nat>>, d: nat): seq<nat> { if d in m then m[d] else [] }

  /** CLDevice::EnqueueReadyQueue */
  function Given(j: Jobs, d: nat, c: nat): Jobs {
    j.(ready := j.ready[d := At(j.ready, d) + [c]], submitted := j.submitted[d := At(j.submitted, d) + [c]])
  }

  /** DequeueReadyQueue, and if there was a command it is running now. */
  function Taken(j: Jobs, d: nat): Jobs {
    var q := At(j.ready, d);
    if q == [] then j
    else j.(ready := j.ready[d := q[1..]], started := j.started[d := At(j.started, d) + [q[0]]], running := j.running + [Job(d, q[0])])
  }

  function Finished(j: Jobs, k: nat): (r: Jobs)
    requires k < |j.running|
    ensures |r.running| == |j.running| - 1
  {
    j.(running := j.running[..k] + j.running[k + 1..], done := j.done + multiset{j.running[k]})
  }

  /** The devices without the gaps. */
  function Compact(devices: seq<Slot>): (r: seq<nat>) {
    if devices == [] then []
    else
      var n := |devices| - 1;
      Compact(devices[..n]) + match devices[n] case Gap => [] case Dev(d) => [d]
  }

  function Slots(ids: seq<nat>): (r: seq<Slot>)
    ensures |r| == |ids| && forall k :: 0 <= k < |r| ==> r[k] == Dev(ids[k])
  {
    seq(|ids|, i requires 0 <= i < |ids| => Dev(ids[i]))
  }

  /** The first entry of d becomes a gap. */
  function Clear(devices: seq<Slot>, d: nat): (r: seq<Slot>)
    ensures |r| == |devices|
  {
    if devices == [] then [] else if devices[0] == Dev(d) then [Gap] + devices[1..] else [devices[0]] + Clear(devices[1..], d)
  }

  datatype Action =
    | AddDevice(d: nat) | RemoveDevice(thread: nat, d: nat) | Submit(d: nat, c: nat) | Start | Stop | Walk | Join
    | Go | Exit | Refresh | Pass | Serve | EndScan | Check(complete: bool) | EndPoll

  predicate Enabled(s: State, a: Action) {
    !s.crashed &&
    match a
    case AddDevice(_) => true
    case RemoveDevice(t, _) => t !in s.waiting
    case Submit(_, _) => true
    case Start => s.pc.Fresh?
    case Stop => !s.pc.Fresh? && s.stop.NotCalled?
    case Walk => s.stop.Walking?
    case Join => s.stop.Joining? && s.pc.Exited?
    case Go => s.pc.Top? && s.going
    case Exit => s.pc.Top? && !s.going
    case Refresh => s.pc.Tested? && s.updated
    case Pass => s.pc.Tested? && !s.updated
    case Serve => s.pc.Scan? && s.pc.k < |s.target|
    case EndScan => s.pc.Scan? && s.pc.k == |s.target|
    case Check(_) => s.pc.Poll? && s.pc.k < |s.jobs.running|
    case EndPoll => s.pc.Poll? && s.pc.k == |s.jobs.running|
  }

  /** The broadcast in Refresh lets every waiting thread return. Stop walks over the list
      and posts the semaphore of every device, without looking for null pointers. */
  function Step(s: State, a: Action): State
    requires Enabled(s, a)
  {
    match a
    case AddDevice(d) => s.(updated := true, devices := s.devices + [Dev(d)])
    case RemoveDevice(t, d) =>
      if Dev(d) in s.devices then s.(updated := true, devices := Clear(s.devices, d), waiting := s.waiting[t := d]) else s
    case Submit(d, c) => s.(jobs := Given(s.jobs, d, c))
    case Start => s.(pc := Top, going := true)
    case Stop => s.(going := false, stop := Walking)
    case Walk => s.(stop := Joining, crashed := Gap in s.devices)
    case Join => s.(stop := Joined)
    case Go => s.(pc := Tested)
    case Exit => s.(pc := Exited)
    case Refresh =>
      var ids := Compact(s.devices);
      s.(waiting := map[], devices := Slots(ids), target := ids, updated := false, pc := Scan(0))
    case Pass => s.(pc := Scan(0))
    case Serve => s.(pc := Scan(s.pc.k + 1), jobs := Taken(s.jobs, s.target[s.pc.k]))
    case EndScan => s.(pc := Poll(0))
    case Check(complete) => if complete then s.(jobs := Finished(s.jobs, s.pc.k)) else s.(pc := Poll(s.pc.k + 1))
    case EndPoll => s.(pc := Top)
  }

  predicate Leads(s: State, actions: seq<Action>, t: State)
    decreases actions
  {
    if actions == [] then s == t else Enabled(s, actions[0]) && Leads(Step(s, actions[0]), actions[1..], t)
  }

  /** As constructed. The constructor without a device leaves devices_updated_ unset. */
  predicate Initial(s: State) {
    && !s.crashed && s.stop.NotCalled? && s.target == [] && s.pc.Fresh? && !s.going && s.waiting == map[] && s.jobs == Jobs(map[], map[], map[], [], multiset{})
    && (s.devices == [] || (|s.devices| == 1 && s.devices[0].Dev? && s.updated))
  }

  /** A thread waits only while the issuer is bound to look; otherwise the issuer's list
      is the list. */
  ghost predicate ListInv(s: State) {
    && (forall t | t in s.waiting :: s.updated)
    && (!s.updated ==> s.devices == Slots(s.target))
    && (s.pc.Scan? ==> s.pc.k <= |s.target|) && (s.pc.Poll? ==> s.pc.k <= |s.jobs.running|)
    && (s.going ==> !s.pc.Fresh? && !s.pc.Exited?) && (s.pc.Fresh? ==> s.stop.NotCalled?) && (s.going <==> !s.pc.Fresh? && s.stop.NotCalled?)
    && (Gap in s.devices ==> s.waiting != map[])
    && (s.waiting != map[] ==> Gap in s.devices)
  }

  /** Every command given to a device's queue is still in it or was started, in the order
      given; every command started is running or was completed, once. */
  ghost predicate JobsKept(j: Jobs, d: nat) {
    && At(j.started, d) + At(j.ready, d) == At(j.submitted, d)
    && forall c :: multiset(j.running)[Job(d, c)] + j.done[Job(d, c)] == multiset(At(j.started, d))[c]
  }

  lemma ListKeeps(s: State, a: Action)
    requires ListInv(s) && Enabled(s, a)
    ensures ListInv(Step(s, a))
  {
    hide Finished;
    hide Compact;
    hide Clear;
    match a
    case AddDevice(d) => assert Gap in s.devices + [Dev(d)] <==> Gap in s.devices;
    case RemoveDevice(t, d) => if Dev(d) in s.devices { ClearGap(s.devices, d); assert t in Step(s, a).waiting; }
    case Serve => TakenGrows(s.jobs, s.target[s.pc.k]);
    case _ => hide Taken;
  }

  lemma {:induction false} ClearGap(devices: seq<Slot>, d: nat)
    requires Dev(d) in devices
    ensures Gap in Clear(devices, d)
  {
    if devices[0] == Dev(d) {
      assert ([Gap] + devices[1..])[0] == Gap;
    } else {
      ClearGap(devices[1..], d);
    }
  }

  lemma TakenGrows(j: Jobs, d: nat)
    ensures |Taken(j, d).running| <= |j.running| + 1
  {}

  lemma TakenKeeps(j: Jobs, e: nat, d: nat)
    requires JobsKept(j, d)
    ensures JobsKept(Taken(j, e), d)
  {
    if At(j.ready, e) != [] {
      TakenShape(j, e);
      hide At;
      hide Taken;
      var q, r := At(j.ready, e), Taken(j, e);
      if e == d { TakenOrder(At(j.started, d), q, At(j.submitted, d)); }
      forall c ensures multiset(r.running)[Job(d, c)] + r.done[Job(d, c)] == multiset(At(r.started, d))[c] {
        assert multiset(j.running)[Job(d, c)] + j.done[Job(d, c)] == multiset(At(j.started, d))[c];
      }
    }
  }

  lemma TakenShape(j: Jobs, e: nat)
    requires At(j.ready, e) != []
    ensures var q, r := At(j.ready, e), Taken(j, e);
            && r.running == j.running + [Job(e, q[0])] && r.done == j.done && r.submitted == j.submitted
            && At(r.started, e) == At(j.started, e) + [q[0]] && At(r.ready, e) == q[1..]
            && forall d | d != e :: At(r.started, d) == At(j.started, d) && At(r.ready, d) == At(j.ready, d)
  {}

  lemma TakenOrder(started: seq<nat>, ready: seq<nat>, submitted: seq<nat>)
    requires ready != [] && started + ready == submitted
    ensures (started + [ready[0]]) + ready[1..] == submitted
  {
    assert ready == [ready[0]] + ready[1..];
  }

  lemma FinishedKeeps(j: Jobs, k: nat, d: nat)
    requires JobsKept(j, d) && k < |j.running|
    ensures JobsKept(Finished(j, k), d)
  {
    assert j.running == j.running[..k] + [j.running[k]] + j.running[k + 1..];
  }

  lemma GivenKeeps(j: Jobs, e: nat, c: nat, d: nat)
    requires JobsKept(j, d)
    ensures JobsKept(Given(j, e, c), d)
  {
    assert (At(j.started, d) + At(j.ready, d)) + [c] == At(j.started, d) + (At(j.ready, d) + [c]);
  }

  lemma JobsKeep(s: State, a: Action, d: nat)
    requires JobsKept(s.jobs, d) && Enabled(s, a)
    ensures JobsKept(Step(s, a).jobs, d)
  {
    hide JobsKept;
    match a
    case Serve => TakenKeeps(s.jobs, s.target[s.pc.k], d);
    case Check(complete) => if complete { FinishedKeeps(s.jobs, s.pc.k, d); }
    case Submit(e, c) => GivenKeeps(s.jobs, e, c, d);
    case _ =>
  }

  lemma {:induction false} RunKeeps(s: State, actions: seq<Action>, t: State)
    requires ListInv(s) && Leads(s, actions, t)
    ensures ListInv(t)
    decreases actions
  {
    hide ListInv;
    hide Step;
    hide Enabled;
    if actions != [] {
      ListKeeps(s, actions[0]);
      RunKeeps(Step(s, actions[0]), actions[1..], t);
    }
  }

  lemma {:induction false} RunJobs(s: State, actions: seq<Action>, t: State, d: nat)
    requires JobsKept(s.jobs, d) && Leads(s, actions, t)
    ensures JobsKept(t.jobs, d)
    decreases actions
  {
    hide JobsKept;
    hide Step;
    hide Enabled;
    if actions != [] {
      JobsKeep(s, actions[0], d);
      RunJobs(Step(s, actions[0]), actions[1..], t, d);
    }
  }

  /** No lost wakeup, whatever devices_updated_ was at first. */
  lemma NoLostWakeup(s: State, actions: seq<Action>, t: State)
    requires Initial(s) && Leads(s, actions, t)
    ensures forall thread | thread in t.waiting :: t.updated
    ensures !t.updated ==> t.devices == Slots(t.target)
  {
    RunKeeps(s, actions, t);
  }

  /** No command is lost, started twice, completed twice or started out of order. */
  lemma EachJobOnce(s: State, actions: seq<Action>, t: State, d: nat)
    requires Initial(s) && Leads(s, actions, t)
    ensures var j := t.jobs;
            && At(j.started, d) + At(j.ready, d) == At(j.submitted, d)
            && forall c :: multiset(j.running)[Job(d, c)] + j.done[Job(d, c)] == multiset(At(j.started, d))[c]
  {
    RunJobs(s, actions, t, d);
  }

  function Copies(devices: seq<Slot>, d: nat): nat { multiset(devices)[Dev(d)] }

  lemma {:induction false} CompactCopies(devices: seq<Slot>, d: nat)
    ensures multiset(Compact(devices))[d] == Copies(devices, d)
  {
    if devices != [] {
      var n := |devices| - 1;
      assert devices == devices[..n] + [devices[n]];
      CompactCopies(devices[..n], d);
      assert multiset(Compact(devices)) == multiset(Compact(devices[..n])) + match devices[n] case Gap => multiset{} case Dev(e) => multiset{e};
    }
  }

  lemma {:induction false} SlotsCopies(ids: seq<nat>, d: nat)
    ensures Copies(Slots(ids), d) == multiset(ids)[d]
  {
    if ids == [] {
      assert Slots(ids) == [];
    } else {
      var n := |ids| - 1;
      assert ids == ids[..n] + [ids[n]];
      assert Slots(ids) == Slots(ids[..n]) + [Dev(ids[n])];
      SlotsCopies(ids[..n], d);
    }
  }

  lemma {:induction false} ClearCopies(devices: seq<Slot>, d: nat, e: nat)
    ensures Copies(Clear(devices, d), e) == Copies(devices, e) - if e == d && Dev(d) in devices then 1 else 0
  {
    if devices != [] {
      assert devices == [devices[0]] + devices[1..];
      if devices[0] != Dev(d) { ClearCopies(devices[1..], d, e); }
    }
  }

  /** Nothing in the run adds d again; nothing else removes a copy that is left. */
  predicate Alone(actions: seq<Action>, d: nat, left: nat) {
    forall a | a in actions :: a != AddDevice(d) && (a.RemoveDevice? && a.d == d ==> left == 0)
  }

  /** left copies of d are in the list; unless the thread still waits, in the issuer's
      list too. */
  ghost predicate Leaving(s: State, thread: nat, d: nat, left: nat) {
    && Copies(s.devices, d) == left
    && (thread in s.waiting || multiset(s.target)[d] == left)
  }

  lemma LeavingKeeps(s: State, a: Action, thread: nat, d: nat, left: nat)
    requires Leaving(s, thread, d, left) && Enabled(s, a) && a != AddDevice(d) && (a.RemoveDevice? && a.d == d ==> left == 0)
    ensures Leaving(Step(s, a), thread, d, left)
  {
    hide Given;
    hide Taken;
    hide Finished;
    hide Compact;
    hide Clear;
    hide Slots;
    match a
    case AddDevice(e) => AddCopies(s.devices, e, d);
    case RemoveDevice(_, e) =>
      ClearCopies(s.devices, e, d);
      hide Copies;
    case Refresh =>
      CompactCopies(s.devices, d);
      SlotsCopies(Compact(s.devices), d);
      hide Copies;
    case _ => hide Copies;
  }

  lemma AddCopies(devices: seq<Slot>, e: nat, d: nat)
    requires e != d
    ensures Copies(devices + [Dev(e)], d) == Copies(devices, d)
  {}

  lemma {:induction false} LeavingRun(s: State, actions: seq<Action>, t: State, thread: nat, d: nat, left: nat)
    requires Leaving(s, thread, d, left) && Leads(s, actions, t) && Alone(actions, d, left)
    ensures Leaving(t, thread, d, left)
    decreases actions
  {
    hide Leaving;
    hide Step;
    hide Enabled;
    if actions != [] {
      LeavingKeeps(s, actions[0], thread, d, left);
      LeavingRun(Step(s, actions[0]), actions[1..], t, thread, d, left);
    }
  }

  /** The handshake: once RemoveDevice(d) has returned, and until d is added again, the
      issuer scans d if and only if d had been added more than once. */
  lemma Removed(s: State, thread: nat, d: nat, actions: seq<Action>, t: State)
    requires Enabled(s, RemoveDevice(thread, d)) && Dev(d) in s.devices
    requires Leads(Step(s, RemoveDevice(thread, d)), actions, t) && Alone(actions, d, Copies(s.devices, d) - 1)
    ensures thread !in t.waiting ==> (d in t.target <==> Copies(s.devices, d) > 1)
    ensures thread !in t.waiting ==> (Dev(d) in t.devices <==> Copies(s.devices, d) > 1)
  {
    ClearCopies(s.devices, d, d);
    LeavingRun(Step(s, RemoveDevice(thread, d)), actions, t, thread, d, Copies(s.devices, d) - 1);
  }

  /** And then no command of d is started. */
  lemma {:induction false} NotServed(s: State, actions: seq<Action>, t: State, d: nat)
    requires d !in s.target && Dev(d) !in s.devices && Leads(s, actions, t) && AddDevice(d) !in actions
    ensures At(t.jobs.started, d) == At(s.jobs.started, d)
    decreases actions
  {
    if actions != [] {
      NotServedStep(s, actions[0], d);
      hide Step;
      hide Enabled;
      NotServed(Step(s, actions[0]), actions[1..], t, d);
    }
  }

  lemma NotServedStep(s: State, a: Action, d: nat)
    requires d !in s.target && Dev(d) !in s.devices && Enabled(s, a) && a != AddDevice(d)
    ensures var t := Step(s, a); At(t.jobs.started, d) == At(s.jobs.started, d) && d !in t.target && Dev(d) !in t.devices
  {
    hide Compact;
    hide Clear;
    hide Taken;
    match a
    case Submit(_, _) => hide Copies;
    case RemoveDevice(_, e) => ClearCopies(s.devices, e, d);
    case Refresh => CompactCopies(s.devices, d);
    case Serve => TakenStarts(s.jobs, s.target[s.pc.k], d);
    case _ =>
  }

  lemma TakenStarts(j: Jobs, e: nat, d: nat)
    requires e != d
    ensures At(Taken(j, e).started, d) == At(j.started, d)
  {}

  /** What the thread does until it is next at the head of its loop. */
  lemma {:induction false} ToTop(s: State) returns (actions: seq<Action>, t: State)
    requires ListInv(s) && !s.crashed && (s.pc.Scan? || s.pc.Poll? || s.pc.Top?)
    ensures Leads(s, actions, t) && t.pc.Top? && ListInv(t) && Same(s, t) && AddsNone(actions)
    decreases Distance(s)
  {
    if s.pc.Top? {
      actions, t := [], s;
    } else {
      var a := if Enabled(s, Serve) then Serve else if Enabled(s, EndScan) then EndScan else if Enabled(s, Check(false)) then Check(false) else EndPoll;
      ListKeeps(s, a);
      Nearer(s, a);
      var rest;
      rest, t := ToTop(Step(s, a));
      actions := [a] + rest;
    }
  }

  /** The thread has gone on serving and polling only, and what was running still is. */
  ghost predicate Same(s: State, t: State) {
    && t.going == s.going && t.updated == s.updated && t.waiting == s.waiting && t.crashed == s.crashed && t.stop == s.stop
    && s.jobs.running <= t.jobs.running
  }

  predicate AddsNone(actions: seq<Action>) { forall a | a in actions :: !a.AddDevice? }

  function Distance(s: State): nat {
    match s.pc
    case Scan(k) => 3 + |s.jobs.running| + if k <= |s.target| then 2 * (|s.target| - k) else 0
    case Poll(k) => 1 + if k <= |s.jobs.running| then |s.jobs.running| - k else 0
    case _ => 0
  }

  lemma Nearer(s: State, a: Action)
    requires ListInv(s) && Enabled(s, a) && (a.Serve? || a.EndScan? || a == Check(false) || a.EndPoll?)
    ensures var t := Step(s, a); Distance(t) < Distance(s) && Same(s, t) && (t.pc.Scan? || t.pc.Poll? || t.pc.Top?)
  {
    hide Given;
    hide Finished;
    hide Compact;
    hide Clear;
    if a.Serve? { TakenGrows(s.jobs, s.target[s.pc.k]); }
    hide Taken;
  }

  ghost predicate MayReturn(s: State, thread: nat) { exists actions, t :: Leads(s, actions, t) && thread !in t.waiting }

  /** The issuer will look at devices_updated_ once more at least. */
  predicate LooksAgain(s: State) { !s.crashed && (s.pc.Fresh? || s.going || s.pc.Tested?) }

  /** A thread in RemoveDevice can still return if and only if the issuer thread has not
      been started yet, or not been told to stop, or has just passed that test. */
  lemma CanReturn(s: State, thread: nat)
    requires ListInv(s) && thread in s.waiting
    ensures MayReturn(s, thread) <==> LooksAgain(s)
  {
    if LooksAgain(s) {
      var actions, t := Returns(s, thread);
      assert Leads(s, actions, t) && thread !in t.waiting;
    } else {
      forall actions, t | Leads(s, actions, t) ensures thread in t.waiting { Stuck(s, actions, t, thread); }
    }
  }

  lemma Returns(s: State, thread: nat) returns (actions: seq<Action>, t: State)
    requires ListInv(s) && thread in s.waiting && LooksAgain(s)
    ensures Leads(s, actions, t) && thread !in t.waiting
  {
    var first, u := ToTested(s);
    t := Step(u, Refresh);
    One(u, Refresh);
    LeadsOn(s, first, u, [Refresh], t);
    actions := first + [Refresh];
  }

  lemma One(s: State, a: Action)
    requires Enabled(s, a)
    ensures Leads(s, [a], Step(s, a))
  {
    assert [a][1..] == [];
  }

  /** What the thread does until it looks. */
  lemma ToTested(s: State) returns (actions: seq<Action>, t: State)
    requires ListInv(s) && LooksAgain(s)
    ensures Leads(s, actions, t) && t.pc.Tested? && !t.crashed && ListInv(t) && AddsNone(actions)
    ensures t.updated == s.updated && t.waiting == s.waiting && s.jobs.running <= t.jobs.running
  {
    if s.pc.Tested? {
      actions, t := [], s;
    } else if s.pc.Fresh? {
      var u := Step(s, Start);
      t := Step(u, Go);
      Two(s, Start, u, Go, t);
      ListKeeps(s, Start);
      ListKeeps(u, Go);
      actions := [Start, Go];
    } else {
      var first, u := ToTop(s);
      t := Step(u, Go);
      ListKeeps(u, Go);
      One(u, Go);
      LeadsOn(s, first, u, [Go], t);
      actions := first + [Go];
    }
  }

  lemma {:induction false} LeadsOn(s: State, a: seq<Action>, t: State, b: seq<Action>, u: State)
    requires Leads(s, a, t) && Leads(t, b, u)
    ensures Leads(s, a + b, u)
    decreases a
  {
    hide Step;
    hide Enabled;
    if a == [] {
      assert a + b == b;
    } else {
      assert (a + b)[1..] == a[1..] + b;
      LeadsOn(Step(s, a[0]), a[1..], t, b, u);
    }
  }

  /** Otherwise it waits for ever: Stop does not wake it. */
  lemma {:induction false} Stuck(s: State, actions: seq<Action>, t: State, thread: nat)
    requires !LooksAgain(s) && thread in s.waiting && Leads(s, actions, t)
    ensures thread in t.waiting
    decreases actions
  {
    if actions != [] {
      StuckStep(s, actions[0], thread);
      hide Step;
      Stuck(Step(s, actions[0]), actions[1..], t, thread);
    }
  }

  lemma StuckStep(s: State, a: Action, thread: nat)
    requires !LooksAgain(s) && thread in s.waiting && Enabled(s, a)
    ensures var t := Step(s, a); !LooksAgain(t) && thread in t.waiting
  {
    hide Compact;
    hide Clear;
    hide Given;
    hide Taken;
    hide Slots;
    hide Finished;
  }

  /** The walk of Stop follows a null pointer if and only if some thread is waiting in
      RemoveDevice. */
  lemma WalkCrashes(s: State, actions: seq<Action>, t: State)
    requires Initial(s) && Leads(s, actions, t) && Enabled(t, Walk)
    ensures Step(t, Walk).crashed <==> t.waiting != map[]
  {
    RunKeeps(s, actions, t);
  }

  lemma Two(s: State, a: Action, s1: State, b: Action, t: State)
    requires Enabled(s, a) && s1 == Step(s, a) && Enabled(s1, b) && t == Step(s1, b)
    ensures Leads(s, [a, b], t)
  {
    hide Step;
    hide Enabled;
    assert [a, b][1..] == [b] && [b][1..] == [];
    assert Leads(t, [], t);
    assert Leads(s1, [b], t);
  }

  /** The thread asks d whether its command is complete. */
  ghost predicate Asks(s: State, d: nat) { Enabled(s, Check(true)) && s.jobs.running[s.pc.k].device == d }

  ghost predicate MayAsk(s: State, d: nat) {
    exists actions, t :: Leads(s, actions, t) && AddDevice(d) !in actions && Asks(t, d)
  }

  /** A command of d is running at place j of the list, and the thread gets there. */
  predicate Reached(s: State, j: nat) {
    && j < |s.jobs.running| && !s.crashed
    && match s.pc
       case Fresh => true
       case Top => s.going
       case Tested => true
       case Scan(_) => true
       case Poll(k) => k <= j || s.going
       case Exited => false
  }

  ghost predicate ToAsk(s: State, d: nat) { exists j: nat :: Reached(s, j) && s.jobs.running[j].device == d }

  /** Once removed, a device can still be asked for if and only if one of its commands is
      running that the thread will yet poll. */
  lemma StillAsked(s: State, d: nat)
    requires ListInv(s) && d !in s.target && Dev(d) !in s.devices
    ensures MayAsk(s, d) <==> ToAsk(s, d)
  {
    if ToAsk(s, d) {
      var j: nat :| Reached(s, j) && s.jobs.running[j].device == d;
      var actions, t := GoAsk(s, j);
      assert Leads(s, actions, t) && AddDevice(d) !in actions && Asks(t, d);
    }
    if MayAsk(s, d) {
      var actions, t :| Leads(s, actions, t) && AddDevice(d) !in actions && Asks(t, d);
      if !ToAsk(s, d) { NeverAsked(s, actions, t, d); }
    }
  }

  lemma {:induction false} NeverAsked(s: State, actions: seq<Action>, t: State, d: nat)
    requires d !in s.target && Dev(d) !in s.devices && !ToAsk(s, d) && Leads(s, actions, t) && AddDevice(d) !in actions
    ensures !Asks(t, d)
    decreases actions
  {
    if actions == [] {
      assert Asks(s, d) ==> Reached(s, s.pc.k);
    } else {
      NotServedStep(s, actions[0], d);
      NotToAsk(s, actions[0], d);
      hide Step;
      hide Enabled;
      NeverAsked(Step(s, actions[0]), actions[1..], t, d);
    }
  }

  lemma NotToAsk(s: State, a: Action, d: nat)
    requires d !in s.target && Enabled(s, a)
    ensures ToAsk(Step(s, a), d) ==> ToAsk(s, d)
  {
    if ToAsk(Step(s, a), d) {
      var j: nat :| Reached(Step(s, a), j) && Step(s, a).jobs.running[j].device == d;
      var i := WasThere(s, a, d, j);
    }
  }

  /** A command of d that will be polled was to be polled before. */
  lemma WasThere(s: State, a: Action, d: nat, j: nat) returns (i: nat)
    requires d !in s.target && Enabled(s, a) && Reached(Step(s, a), j) && Step(s, a).jobs.running[j].device == d
    ensures Reached(s, i) && s.jobs.running[i].device == d
  {
    hide Compact;
    hide Clear;
    hide Given;
    hide Slots;
    i := if a == Check(true) && j >= s.pc.k then j + 1 else j;
    match a
    case Serve => TakenOthers(s.jobs, s.target[s.pc.k], j);
    case Check(complete) => hide Taken;
    case Submit(e, c) => GivenSame(s.jobs, e, c);
    case _ => hide Taken;
  }

  lemma GivenSame(j: Jobs, e: nat, c: nat)
    ensures Given(j, e, c).running == j.running
  {}

  lemma TakenOthers(j: Jobs, e: nat, k: nat)
    requires k < |Taken(j, e).running|
    ensures if k < |j.running| then Taken(j, e).running[k] == j.running[k] else Taken(j, e).running[k].device == e
  {}

  /** From the first command on, to place j. */
  lemma {:induction false} PollTo(s: State, j: nat) returns (actions: seq<Action>, t: State)
    requires !s.crashed && s.pc.Poll? && s.pc.k <= j < |s.jobs.running|
    ensures Leads(s, actions, t) && AddsNone(actions) && t == s.(pc := Poll(j))
    decreases j - s.pc.k
  {
    if s.pc.k == j {
      actions, t := [], s;
    } else {
      var rest;
      rest, t := PollTo(Step(s, Check(false)), j);
      actions := [Check(false)] + rest;
    }
  }

  /** To the end of a scan. */
  lemma {:induction false} ScanTo(s: State) returns (actions: seq<Action>, t: State)
    requires ListInv(s) && !s.crashed && s.pc.Scan?
    ensures Leads(s, actions, t) && AddsNone(actions) && t.pc == Poll(0) && s.jobs.running <= t.jobs.running && !t.crashed
    decreases |s.target| - s.pc.k
  {
    if s.pc.k == |s.target| {
      t := Step(s, EndScan);
      One(s, EndScan);
      actions := [EndScan];
    } else {
      ListKeeps(s, Serve);
      TakenMore(s.jobs, s.target[s.pc.k]);
      var rest;
      rest, t := ScanTo(Step(s, Serve));
      actions := [Serve] + rest;
    }
  }

  lemma TakenMore(j: Jobs, d: nat)
    ensures j.running <= Taken(j, d).running
  {}

  /** From the test of devices_updated_ to place j. */
  lemma TestedTo(s: State, j: nat) returns (actions: seq<Action>, t: State)
    requires ListInv(s) && !s.crashed && s.pc.Tested? && j < |s.jobs.running|
    ensures Leads(s, actions, t) && AddsNone(actions) && t.pc == Poll(j) && !t.crashed && s.jobs.running <= t.jobs.running
  {
    var a := if s.updated then Refresh else Pass;
    var u := Step(s, a);
    ListKeeps(s, a);
    One(s, a);
    var scan, v := ScanTo(u);
    var poll;
    poll, t := PollTo(v, j);
    LeadsOn(u, scan, v, poll, t);
    LeadsOn(s, [a], u, scan + poll, t);
    actions := [a] + (scan + poll);
  }

  lemma GoAsk(s: State, j: nat) returns (actions: seq<Action>, t: State)
    requires ListInv(s) && Reached(s, j)
    ensures Leads(s, actions, t) && AddsNone(actions) && Enabled(t, Check(true)) && t.jobs.running[t.pc.k] == s.jobs.running[j]
  {
    if s.pc.Poll? && s.pc.k <= j {
      actions, t := PollTo(s, j);
    } else if s.pc.Scan? {
      var scan, v := ScanTo(s);
      var poll;
      poll, t := PollTo(v, j);
      LeadsOn(s, scan, v, poll, t);
      actions := scan + poll;
    } else {
      var first, u := ToTested(s);
      var rest;
      rest, t := TestedTo(u, j);
      LeadsOn(s, first, u, rest, t);
      actions := first + rest;
    }
  }

  /** One more action. */
  lemma Then(s: State, actions: seq<Action>, t: State, a: Action, u: State)
    requires Leads(s, actions, t) && Enabled(t, a) && u == Step(t, a)
    ensures Leads(s, actions + [a], u)
  {
    One(t, a);
    LeadsOn(s, actions, t, [a], u);
  }

  const IDLE := Jobs(map[], map[], map[], [], multiset{})

  /** The issuer of device d, as constructed, and started. */
  function New(d: nat): State { State([Dev(d)], true, [], Fresh, false, map[], IDLE, NotCalled, false) }

  lemma Started(d: nat)
    ensures Initial(New(d)) && Leads(New(d), [Start], New(d).(pc := Top, going := true))
    ensures Leads(New(d), [Start, Go], New(d).(pc := Tested, going := true))
  {
    var s := New(d);
    Two(s, Start, s.(pc := Top, going := true), Go, s.(pc := Tested, going := true));
    One(s, Start);
  }

  lemma Cleared(d: nat)
    ensures Clear([Dev(d)], d) == [Gap] && Compact([Gap]) == [] && Compact([Dev(d)]) == [d] && Slots([]) == [] && Slots([d]) == [Dev(d)]
  {
    assert [Gap][..0] == [] && [Dev(d)][..0] == [];
  }

  lemma Removes(s: State, d: nat, thread: nat)
    requires s.devices == [Dev(d)] && s.waiting == map[] && !s.crashed
    ensures Enabled(s, RemoveDevice(thread, d))
    ensures Step(s, RemoveDevice(thread, d)) == s.(updated := true, devices := [Gap], waiting := map[thread := d])
  {
    Cleared(d);
    assert map[][thread := d] == map[thread := d];
  }

  lemma Refreshes(s: State)
    requires s.devices == [Gap] && s.updated && s.pc.Tested? && !s.crashed
    ensures Enabled(s, Refresh) && Step(s, Refresh) == s.(waiting := map[], devices := [], target := [], updated := false, pc := Scan(0))
  {
    Cleared(0);
  }

  /** A thread that calls RemoveDevice after Stop has walked over the list waits for ever. */
  lemma WaitsForEver(d: nat, thread: nat) returns (actions: seq<Action>, t: State)
    ensures Leads(New(d), actions, t) && thread in t.waiting && !t.crashed && !MayReturn(t, thread)
  {
    hide Leads;
    hide Clear;
    hide Compact;
    hide Slots;
    hide Given;
    hide Taken;
    hide Finished;
    Started(d);
    var s := New(d).(pc := Top, going := true);
    var u := s.(going := false, stop := Walking);
    var v := u.(stop := Joining);
    t := v.(devices := [Gap], waiting := map[thread := d]);
    Then(New(d), [Start], s, Stop, u);
    Then(New(d), [Start] + [Stop], u, Walk, v);
    Removes(v, d, thread);
    Then(New(d), [Start] + [Stop] + [Walk], v, RemoveDevice(thread, d), t);
    actions := [Start] + [Stop] + [Walk] + [RemoveDevice(thread, d)];
    hide Step;
    hide Enabled;
    forall more, w | Leads(t, more, w) ensures thread in w.waiting { Stuck(t, more, w, thread); }
  }

  /** One that called it before may still return after Stop. */
  lemma ReturnsAfterStop(d: nat, thread: nat) returns (actions: seq<Action>, s: State, t: State)
    ensures Leads(New(d), actions, s) && thread in s.waiting && !s.going && Leads(s, [Refresh], t) && thread !in t.waiting
  {
    hide Leads;
    hide Clear;
    hide Compact;
    hide Slots;
    hide Given;
    hide Taken;
    hide Finished;
    Started(d);
    var q := New(d).(pc := Tested, going := true);
    var r := q.(devices := [Gap], waiting := map[thread := d]);
    s := r.(going := false, stop := Walking);
    Removes(q, d, thread);
    Then(New(d), [Start, Go], q, RemoveDevice(thread, d), r);
    Then(New(d), [Start, Go] + [RemoveDevice(thread, d)], r, Stop, s);
    actions := [Start, Go] + [RemoveDevice(thread, d)] + [Stop];
    Refreshes(s);
    t := Step(s, Refresh);
    One(s, Refresh);
  }

  /** And Stop itself may follow the null pointer that RemoveDevice has left. */
  lemma StopCrashes(d: nat, thread: nat) returns (actions: seq<Action>, t: State)
    ensures Leads(New(d), actions, t) && t.crashed
  {
    hide Leads;
    hide Clear;
    hide Compact;
    hide Slots;
    hide Given;
    hide Taken;
    hide Finished;
    Started(d);
    var s := New(d).(pc := Top, going := true);
    var u := s.(devices := [Gap], waiting := map[thread := d]);
    var v := u.(going := false, stop := Walking);
    t := v.(stop := Joining, crashed := true);
    Removes(s, d, thread);
    Then(New(d), [Start], s, RemoveDevice(thread, d), u);
    Then(New(d), [Start] + [RemoveDevice(thread, d)], u, Stop, v);
    Then(New(d), [Start] + [RemoveDevice(thread, d)] + [Stop], v, Walk, t);
    actions := [Start] + [RemoveDevice(thread, d)] + [Stop] + [Walk];
  }

  /** The thread has listed device d and started its command c. */
  function Busy(d: nat, c: nat): State {
    State([Dev(d)], false, [d], Poll(0), true, map[], Jobs(map[d := []], map[d := [c]], map[d := [c]], [Job(d, c)], multiset{}), NotCalled, false)
  }

  lemma GetsBusy(d: nat, c: nat) returns (actions: seq<Action>)
    ensures Leads(New(d), actions, Busy(d, c))
  {
    hide Leads;
    Started(d);
    Cleared(d);
    var s := New(d).(pc := Tested, going := true);
    var u := State([Dev(d)], false, [d], Scan(0), true, map[], IDLE, NotCalled, false);
    var v := u.(jobs := Jobs(map[d := [c]], map[d := [c]], map[], [], multiset{}));
    var w := Busy(d, c).(pc := Scan(1));
    Then(New(d), [Start, Go], s, Refresh, u);
    GivenFirst(d, c);
    Then(New(d), [Start, Go] + [Refresh], u, Submit(d, c), v);
    TakenFirst(d, c);
    Then(New(d), [Start, Go] + [Refresh] + [Submit(d, c)], v, Serve, w);
    Then(New(d), [Start, Go] + [Refresh] + [Submit(d, c)] + [Serve], w, EndScan, Busy(d, c));
    actions := [Start, Go] + [Refresh] + [Submit(d, c)] + [Serve] + [EndScan];
  }

  lemma GivenFirst(d: nat, c: nat)
    ensures Given(IDLE, d, c) == Jobs(map[d := [c]], map[d := [c]], map[], [], multiset{})
  {
    assert [] + [c] == [c];
  }

  lemma TakenFirst(d: nat, c: nat)
    ensures Taken(Jobs(map[d := [c]], map[d := [c]], map[], [], multiset{}), d) == Busy(d, c).jobs
  {
    assert [c][1..] == [] && [] + [c] == [c] && [] + [Job(d, c)] == [Job(d, c)];
  }

  /** RemoveDevice(d) returns while a command of d is running, and d is asked for later. */
  lemma AskedAfterReturn(d: nat, c: nat, thread: nat) returns (before: seq<Action>, actions: seq<Action>, t: State)
    ensures Leads(New(d), before, Busy(d, c)) && Leads(Busy(d, c), [RemoveDevice(thread, d)] + actions, t)
    ensures thread !in t.waiting && d !in t.target && Dev(d) !in t.devices && AddDevice(d) !in actions && MayAsk(t, d)
  {
    before := GetsBusy(d, c);
    var s := Busy(d, c);
    var u := s.(updated := true, devices := [Gap], waiting := map[thread := d]);
    t := u.(updated := false, devices := [], target := [], waiting := map[], pc := Scan(0));
    actions := [Check(false), EndPoll, Go, Refresh];
    Removes(s, d, thread);
    ReturnRun(s, d, thread);
    MayAskFirst(t, d);
  }

  lemma ReturnRun(s: State, d: nat, thread: nat)
    requires s.pc == Poll(0) && s.going && !s.crashed && |s.jobs.running| == 1 && s.devices == [Dev(d)] && s.waiting == map[]
    ensures Leads(s, [RemoveDevice(thread, d)] + [Check(false), EndPoll, Go, Refresh],
                  s.(updated := false, devices := [], target := [], waiting := map[], pc := Scan(0)))
  {
    hide Leads;
    hide Clear;
    hide Compact;
    hide Slots;
    hide Given;
    hide Taken;
    hide Finished;
    Removes(s, d, thread);
    var u := s.(updated := true, devices := [Gap], waiting := map[thread := d]);
    One(s, RemoveDevice(thread, d));
    Two(u, Check(false), u.(pc := Poll(1)), EndPoll, u.(pc := Top));
    LeadsOn(s, [RemoveDevice(thread, d)], u, [Check(false), EndPoll], u.(pc := Top));
    var x := u.(pc := Tested);
    Refreshes(x);
    Two(u.(pc := Top), Go, x, Refresh, Step(x, Refresh));
    LeadsOn(s, [RemoveDevice(thread, d)] + [Check(false), EndPoll], u.(pc := Top), [Go, Refresh], Step(x, Refresh));
    assert [RemoveDevice(thread, d)] + [Check(false), EndPoll] + [Go, Refresh] == [RemoveDevice(thread, d)] + [Check(false), EndPoll, Go, Refresh];
  }

  lemma MayAskFirst(t: State, d: nat)
    requires ListInv(t) && d !in t.target && Dev(d) !in t.devices && t.pc == Scan(0) && !t.crashed
    requires |t.jobs.running| > 0 && t.jobs.running[0].device == d
    ensures MayAsk(t, d)
  {
    assert Reached(t, 0);
    StillAsked(t, d);
  }

  /** The commands that are, or are not, complete. */
  function Those(running: seq<Job>, complete: set<Job>, wanted: bool): (r: seq<Job>) {
    if running == [] then []
    else
      var n := |running| - 1;
      Those(running[..n], complete, wanted) + if (running[n] in complete) == wanted then [running[n]] else []
  }

  function Complete(complete: set<Job>, wanted: bool): Job -> bool { (job: Job) => (job in complete) == wanted }

  /** They are exactly the members that are, or are not, complete, in order. */
  lemma {:induction false} ThoseKept(running: seq<Job>, complete: set<Job>, wanted: bool)
    ensures Kept(running, Complete(complete, wanted), Those(running, complete, wanted))
  {
    hide Kept;
    if running == [] {
      KeptNone(Complete(complete, wanted));
    } else {
      var n := |running| - 1;
      ThoseKept(running[..n], complete, wanted);
      assert running == running[..n] + [running[n]];
      KeptMore(running[..n], Complete(complete, wanted), Those(running[..n], complete, wanted), running[n]);
    }
  }

  const OCCUPIED: Slot -> bool := (slot: Slot) => slot.Dev?

  /** What Refresh keeps of the list: the devices, in order. */
  lemma {:induction false} CompactKept(devices: seq<Slot>)
    ensures Kept(devices, OCCUPIED, Slots(Compact(devices)))
  {
    hide Kept;
    if devices == [] {
      KeptNone(OCCUPIED);
      assert Slots(Compact(devices)) == [];
    } else {
      var n := |devices| - 1;
      CompactKept(devices[..n]);
      assert devices == devices[..n] + [devices[n]];
      KeptMore(devices[..n], OCCUPIED, Slots(Compact(devices[..n])), devices[n]);
      assert Slots(Compact(devices)) == Slots(Compact(devices[..n])) + if devices[n].Dev? then [devices[n]] else [];
    }
  }

  /** A pass over the running commands loses none and doubles none. */
  lemma {:induction false} ThoseSplit(running: seq<Job>, complete: set<Job>)
    ensures multiset(Those(running, complete, true)) + multiset(Those(running, complete, false)) == multiset(running)
  {
    if running != [] {
      var n := |running| - 1;
      assert running == running[..n] + [running[n]];
      ThoseSplit(running[..n], complete);
    }
  }

  lemma {:induction false} ClearAt(devices: seq<Slot>, d: nat, k: nat)
    requires k < |devices| && devices[k] == Dev(d) && forall i :: 0 <= i < k ==> devices[i] != Dev(d)
    ensures Clear(devices, d) == devices[k := Gap]
  {
    if k > 0 {
      assert devices[1..][k - 1] == devices[k];
      ClearAt(devices[1..], d, k - 1);
      assert devices == [devices[0]] + devices[1..];
    }
  }

  /** CLIssuer's lists. A blocking issuer serves one device only, and ignores both. */
  class Issuer {
    const blocking: bool
    var devices: seq<Slot>
    var updated: bool
    var target: seq<nat>
    var running: seq<Job>

    constructor (device: nat, blocking: bool)
      ensures devices == [Dev(device)] && updated && target == [] && running == [] && this.blocking == blocking
    {
      this.blocking, devices, updated, target, running := blocking, [Dev(device)], true, [], [];
    }

    method AddDevice(d: nat)
      modifies this
      ensures blocking ==> devices == old(devices) && updated == old(updated)
      ensures !blocking ==> devices == old(devices) + [Dev(d)] && updated
      ensures target == old(target) && running == old(running)
    {
      if blocking { return; }
      updated := true;
      devices := devices + [Dev(d)];
    }

    /** Up to the wait: waits says whether there is one. */
    method RemoveDevice(d: nat) returns (waits: bool)
      modifies this
      ensures waits <==> !blocking && Dev(d) in old(devices)
      ensures waits ==> devices == Clear(old(devices), d) && updated
      ensures !waits ==> devices == old(devices) && updated == old(updated)
      ensures target == old(target) && running == old(running)
    {
      if blocking { return false; }
      var it := 0;
      while it < |devices| && devices[it] != Dev(d)
        invariant it <= |devices| && forall k :: 0 <= k < it ==> devices[k] != Dev(d)
      {
        it := it + 1;
      }
      waits := it != |devices|;
      if waits {
        ClearAt(devices, d, it);
        updated := true;
        devices := devices[it := Gap];
      }
    }

    /** The critical section of the thread's loop. */
    method Refresh()
      modifies this
      ensures updated == false && running == old(running)
      ensures old(updated) ==> devices == Slots(Compact(old(devices))) && target == Compact(old(devices)) && Kept(old(devices), OCCUPIED, devices)
      ensures !old(updated) ==> devices == old(devices) && target == old(target)
    {
      if updated {
        CompactKept(devices);
        hide Kept;
        var kept: seq<nat> := [];
        for i := 0 to |devices|
          invariant kept == Compact(devices[..i])
        {
          assert devices[..i + 1][..i] == devices[..i];
          if devices[i].Dev? { kept := kept + [devices[i].id]; }
        }
        assert devices[..|devices|] == devices;
        devices := Slots(kept);
        target := kept;
        updated := false;
      }
    }

    /** Drops the complete commands from the list, in place. */
    method Poll(complete: set<Job>) returns (finished: seq<Job>)
      modifies this`running
      ensures running == Those(old(running), complete, false) && Kept(old(running), Complete(complete, false), running)
      ensures finished == Those(old(running), complete, true) && Kept(old(running), Complete(complete, true), finished)
    {
      ThoseKept(running, complete, true);
      ThoseKept(running, complete, false);
      hide Kept;
      finished := [];
      var it := 0;
      ghost var seen := 0;
      ghost var all := running;
      while it < |running|
        modifies this`running
        invariant it <= |running| && seen <= |all| && running[it..] == all[seen..]
        invariant running[..it] == Those(all[..seen], complete, false) && finished == Those(all[..seen], complete, true)
        decreases |running| - it
      {
        assert running[it] == running[it..][0] == all[seen];
        assert all[..seen + 1][..seen] == all[..seen];
        assert running[it + 1..] == running[it..][1..] == all[seen + 1..];
        if running[it] in complete {
          finished := finished + [running[it]];
          running := running[..it] + running[it + 1..];
        } else {
          it := it + 1;
        }
        seen := seen + 1;
      }
      assert running[..it] == running && all[..seen] == all;
    }
  }
}
