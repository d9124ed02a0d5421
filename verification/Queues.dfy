/** In-order and out-of-order command queues, their commands' events, and the device
    that runs them, under every interleaving. */
module Queues {
  import opened Wrappers

  datatype Status = Queued | Submitted | Running | Complete | Failed

  predicate Over(s: Status) { s.Complete? || s.Failed? }

  /** A command waits for events; a marker or barrier is special in an out-of-order
      queue. */
  datatype Command = Command(waits: set<nat>, barrier: bool)

  /** list is what Peek looks at; history is every command enqueued, in order, of which
      the last is last_event_. */
  datatype Queue = Queue(inOrder: bool, list: seq<nat>, history: seq<nat>)

  /** Events are numbered as they are created. A command and its event have the same
      number; the others are user events and the events of clones. */
  datatype State = State(status: seq<Status>, cmds: map<nat, Command>, queues: seq<Queue>)

  /** CLCommand::IsExecutable */
  predicate Executable(s: State, id: nat)
    requires id in s.cmds
  {
    forall w | w in s.cmds[id].waits :: w < |s.status| && Over(s.status[w])
  }

  /** CLInOrderCommandQueue::Peek looks at the first command only. The other Peek takes
      the first executable command, but a marker or barrier only from the front. */
  function PeekInOrder(s: State, list: seq<nat>): Option<nat>
    requires forall id | id in list :: id in s.cmds
  {
    if list != [] && Executable(s, list[0]) then Some(list[0]) else None
  }

  function PeekFrom(s: State, list: seq<nat>, k: nat): Option<nat>
    requires k <= |list| && forall id | id in list :: id in s.cmds
    decreases |list| - k
  {
    if k == |list| then None
    else if !Executable(s, list[k]) then PeekFrom(s, list, k + 1)
    else if s.cmds[list[k]].barrier && k > 0 then None
    else Some(list[k])
  }

  function Peek(s: State, q: Queue): Option<nat>
    requires forall id | id in q.list :: id in s.cmds
  {
    if q.inOrder then PeekInOrder(s, q.list) else PeekFrom(s, q.list, 0)
  }

  /** commands_.remove(command) */
  function Without(list: seq<nat>, id: nat): (r: seq<nat>)
    ensures forall x :: x in r <==> x in list && x != id
    ensures |r| <= |list|
  {
    if list == [] then [] else if list[0] == id then Without(list[1..], id) else [list[0]] + Without(list[1..], id)
  }

  ghost predicate KnownCommands(s: State) {
    && (forall id | id in s.cmds :: id < |s.status|)
    && forall qi, id | 0 <= qi < |s.queues| && id in s.queues[qi].list :: id in s.cmds
  }

  datatype Action =
    | Enqueue(qi: nat, waits: set<nat>, barrier: bool)
    | CreateUser
    | SetUser(id: nat, ok: bool)
    | Refuse(qi: nat)
    | Submit(qi: nat)
    | Start(id: nat)
    | Finish(id: nat, ok: bool)

  /** Number of an event that belongs to no command. */
  predicate Loose(s: State, id: nat) { id < |s.status| && id !in s.cmds }

  ghost predicate Enabled(s: State, a: Action) {
    KnownCommands(s) &&
    match a
    case Enqueue(qi, waits, _) => qi < |s.queues| && forall w | w in waits :: w < |s.status|
    case CreateUser => true
    case SetUser(id, _) => Loose(s, id) && s.status[id].Submitted?
    case Refuse(qi) => qi < |s.queues| && Peek(s, s.queues[qi]).Some?
    case Submit(qi) => qi < |s.queues| && Peek(s, s.queues[qi]).Some?
    case Start(id) => id < |s.status| && s.status[id].Submitted?
    case Finish(id, _) => id < |s.status| && s.status[id].Running?
  }

  function Last(q: Queue): set<nat> { if q.history == [] then {} else {q.history[|q.history| - 1]} }

  /** Enqueue makes an in-order command wait for its predecessor. Refuse: the command
      Peek returned gets a clone to wait for, whose event has just been submitted.
      Submit takes the command from the queue. */
  ghost function Step(s: State, a: Action): State
    requires Enabled(s, a)
  {
    var n := |s.status|;
    match a
    case Enqueue(qi, waits, barrier) =>
      var q := s.queues[qi];
      State(s.status + [Queued],
            s.cmds[n := Command(waits + if q.inOrder then Last(q) else {}, barrier)],
            s.queues[qi := q.(list := q.list + [n], history := q.history + [n])])
    case CreateUser => s.(status := s.status + [Submitted])
    case SetUser(id, ok) => s.(status := s.status[id := if ok then Complete else Failed])
    case Refuse(qi) =>
      var id := Peek(s, s.queues[qi]).value;
      PeekKnown(s, qi);
      s.(status := s.status + [Submitted], cmds := s.cmds[id := s.cmds[id].(waits := s.cmds[id].waits + {n})])
    case Submit(qi) =>
      var id := Peek(s, s.queues[qi]).value;
      PeekKnown(s, qi);
      s.(status := s.status[id := Submitted], queues := s.queues[qi := s.queues[qi].(list := Without(s.queues[qi].list, id))])
    case Start(id) => s.(status := s.status[id := Running])
    case Finish(id, ok) => s.(status := s.status[id := if ok then Complete else Failed])
  }

  lemma {:induction false} PeekFromKnown(s: State, list: seq<nat>, k: nat)
    requires k <= |list| && (forall id | id in list :: id in s.cmds) && PeekFrom(s, list, k).Some?
    ensures PeekFrom(s, list, k).value in list && Executable(s, PeekFrom(s, list, k).value)
    decreases |list| - k
  {
    if !Executable(s, list[k]) { PeekFromKnown(s, list, k + 1); }
  }

  lemma PeekKnown(s: State, qi: nat)
    requires KnownCommands(s) && qi < |s.queues| && Peek(s, s.queues[qi]).Some?
    ensures var id := Peek(s, s.queues[qi]).value; id in s.queues[qi].list && id in s.cmds && id < |s.status| && Executable(s, id)
  {
    if !s.queues[qi].inOrder { PeekFromKnown(s, s.queues[qi].list, 0); }
  }

  ghost predicate Ascending(l: seq<nat>) { forall i, j :: 0 <= i < j < |l| ==> l[i] < l[j] }

  /** A command waits for earlier events, or for clones, which are never queued. */
  ghost predicate WaitsOk(s: State, id: nat)
    requires id in s.cmds
  {
    forall w | w in s.cmds[id].waits :: w < |s.status| && (w < id || w !in s.cmds)
  }

  /** In an in-order queue a command waits for its predecessor, and has not been taken
      before that was over. */
  ghost predicate Linked(s: State, q: Queue, k: nat) {
    k + 1 < |q.history| ==>
      && q.history[k + 1] in s.cmds && q.history[k] in s.cmds[q.history[k + 1]].waits
      && q.history[k] < |s.status| && q.history[k + 1] < |s.status|
      && (s.status[q.history[k + 1]].Queued? || Over(s.status[q.history[k]]))
  }

  /** The queue holds the queued commands of its history, and nothing else. */
  ghost predicate QueueOk(s: State, q: Queue) {
    && Ascending(q.list) && Ascending(q.history)
    && (forall id | id in q.list :: id in q.history)
    && (forall id | id in q.history :: id in s.cmds && id < |s.status| && (id in q.list <==> s.status[id].Queued?))
    && (q.inOrder ==> forall k: nat :: Linked(s, q, k))
  }

  ghost predicate QueuesOk(s: State) { forall qi | 0 <= qi < |s.queues| :: QueueOk(s, s.queues[qi]) }

  /** Every command was enqueued in one queue. */
  ghost predicate Homes(s: State) {
    && (forall id | id in s.cmds :: exists qi :: 0 <= qi < |s.queues| && id in s.queues[qi].history)
    && (forall qi, ri, id | 0 <= qi < |s.queues| && 0 <= ri < |s.queues| && id in s.queues[qi].history && id in s.queues[ri].history :: qi == ri)
  }

  ghost predicate Inv(s: State) {
    && KnownCommands(s) && QueuesOk(s) && Homes(s)
    && (forall id | id in s.cmds :: WaitsOk(s, id))
    && (forall id: nat | Loose(s, id) :: !s.status[id].Queued?)
  }

  lemma {:induction false} WithoutAscending(list: seq<nat>, id: nat)
    requires Ascending(list)
    ensures Ascending(Without(list, id))
  {
    if list != [] {
      var rest := Without(list[1..], id);
      WithoutAscending(list[1..], id);
      forall j | 0 <= j < |rest| ensures list[0] < rest[j] {
        assert rest[j] in rest;
        var k :| 0 <= k < |list[1..]| && list[1..][k] == rest[j];
        assert list[k + 1] == rest[j];
      }
    }
  }

  /** A queue whose commands' events and waits are as before, or have more to wait for. */
  lemma QueueKept(s: State, t: State, q: Queue)
    requires QueueOk(s, q) && |s.status| <= |t.status|
    requires forall id | id in q.history :: id in t.cmds && t.status[id] == s.status[id] && s.cmds[id].waits <= t.cmds[id].waits
    ensures QueueOk(t, q)
  {
    if q.inOrder {
      forall k: nat ensures Linked(t, q, k) {
        assert Linked(s, q, k);
        if k + 1 < |q.history| { assert q.history[k] in q.history && q.history[k + 1] in q.history; }
      }
    }
  }

  /** A command of q moves on: taken only if what it waits for is over, and never back. */
  lemma QueueMoves(s: State, t: State, q: Queue, q': Queue, id: nat)
    requires QueueOk(s, q) && t.cmds == s.cmds && |t.status| == |s.status| && id in q.history && id < |s.status|
    requires (forall w: nat | w < |s.status| && w != id :: t.status[w] == s.status[w]) && !t.status[id].Queued?
    requires q'.inOrder == q.inOrder && q'.history == q.history && Ascending(q'.list) && forall x :: x in q'.list <==> x in q.list && x != id
    requires Over(s.status[id]) ==> Over(t.status[id])
    requires s.status[id].Queued? ==> id in s.cmds && Executable(s, id)
    ensures QueueOk(t, q')
  {
    if q.inOrder {
      forall k: nat ensures Linked(t, q', k) {
        assert Linked(s, q, k);
        if k + 1 < |q.history| { assert q.history[k] in q.history && q.history[k + 1] in q.history; }
      }
    }
  }

  lemma AppendAscending(l: seq<nat>, n: nat)
    requires Ascending(l) && forall x | x in l :: x < n
    ensures Ascending(l + [n])
  {
    forall i, j | 0 <= i < j < |l + [n]| ensures (l + [n])[i] < (l + [n])[j] {
      if j == |l| { assert l[i] in l; }
    }
  }

  lemma EnqueueQueue(s: State, t: State, q: Queue, q': Queue)
    requires QueueOk(s, q) && t.status == s.status + [Queued]
    requires q' == q.(list := q.list + [|s.status|], history := q.history + [|s.status|])
    requires |s.status| in t.cmds && (q.inOrder ==> Last(q) <= t.cmds[|s.status|].waits)
    requires forall id | id in s.cmds && id < |s.status| :: id in t.cmds && t.cmds[id] == s.cmds[id]
    ensures QueueOk(t, q')
  {
    var n := |s.status|;
    AppendAscending(q.list, n);
    AppendAscending(q.history, n);
    forall id | id in q'.history ensures id in t.cmds && id < |t.status| && (id in q'.list <==> t.status[id].Queued?) {
      if id != n { assert id in q.history; }
    }
    if q.inOrder {
      forall k: nat ensures Linked(t, q', k) {
        assert Linked(s, q, k);
        if k < |q.history| { assert q.history[k] in q.history; }
        if k + 1 < |q.history| { assert q.history[k + 1] in q.history; }
      }
    }
  }

  /** Histories stay apart when one of them grows by a new command. */
  lemma EnqueueHomes(s: State, t: State, qi: nat)
    requires Homes(s) && QueuesOk(s) && qi < |s.queues| == |t.queues| && t.cmds.Keys == s.cmds.Keys + {|s.status|}
    requires forall ri | 0 <= ri < |s.queues| && ri != qi :: t.queues[ri] == s.queues[ri]
    requires t.queues[qi].history == s.queues[qi].history + [|s.status|]
    ensures Homes(t)
  {
    var n := |s.status|;
    forall ri | 0 <= ri < |s.queues| ensures n !in s.queues[ri].history {
      assert QueueOk(s, s.queues[ri]);
    }
    hide QueuesOk;
    forall id | id in t.cmds ensures exists ri :: 0 <= ri < |t.queues| && id in t.queues[ri].history {
      if id == n {
        assert n in t.queues[qi].history;
      } else {
        var ri :| 0 <= ri < |s.queues| && id in s.queues[ri].history;
        assert id in t.queues[ri].history;
      }
    }
  }

  lemma WaitsKept(s: State, t: State, id: nat)
    requires id in s.cmds && WaitsOk(s, id) && id in t.cmds && |s.status| <= |t.status|
    requires t.cmds[id].waits == s.cmds[id].waits && forall w | w in t.cmds :: w in s.cmds || w >= |s.status|
    ensures WaitsOk(t, id)
  {}

  lemma EnqueueKeeps(s: State, qi: nat, waits: set<nat>, barrier: bool)
    requires Inv(s) && Enabled(s, Enqueue(qi, waits, barrier))
    ensures Inv(Step(s, Enqueue(qi, waits, barrier)))
  {
    hide Inv;
    hide Enabled;
    hide Step;
    hide QueueOk;
    hide Homes;
    hide WaitsOk;
    hide KnownCommands;
    hide Loose;
    InvParts(s);
    EnqueueShape(s, qi, waits, barrier);
    var t, n, q := Step(s, Enqueue(qi, waits, barrier)), |s.status|, s.queues[qi];
    EnqueueQueue(s, t, q, t.queues[qi]);
    forall ri | 0 <= ri < |t.queues| ensures QueueOk(t, t.queues[ri]) {
      if ri != qi {
        HistoryCommands(s, s.queues[ri]);
        QueueKept(s, t, s.queues[ri]);
      }
    }
    EnqueueHomes(s, t, qi);
    forall id | id in t.cmds ensures WaitsOk(t, id) {
      if id != n { WaitsKept(s, t, id); } else { NewWaits(s, t, q, waits); }
    }
    EnqueueRest(s, qi, waits, barrier);
    InvFrom(t);
  }

  lemma InvParts(s: State)
    requires Inv(s)
    ensures QueuesOk(s) && Homes(s) && (forall id | id in s.cmds :: WaitsOk(s, id)) && forall id | id in s.cmds :: id < |s.status|
    ensures forall qi | 0 <= qi < |s.queues| :: QueueOk(s, s.queues[qi])
  {
    hide QueueOk;
    hide Homes;
    hide WaitsOk;
  }

  lemma InvFrom(s: State)
    requires KnownCommands(s) && QueuesOk(s) && Homes(s) && (forall id | id in s.cmds :: WaitsOk(s, id))
    requires forall id: nat | Loose(s, id) :: !s.status[id].Queued?
    ensures Inv(s)
  {
    hide QueueOk;
    hide Homes;
    hide WaitsOk;
  }

  lemma EnqueueShape(s: State, qi: nat, waits: set<nat>, barrier: bool)
    requires Enabled(s, Enqueue(qi, waits, barrier))
    ensures var t, n, q := Step(s, Enqueue(qi, waits, barrier)), |s.status|, s.queues[qi];
            && t.status == s.status + [Queued] && t.cmds.Keys == s.cmds.Keys + {n} && |t.queues| == |s.queues|
            && (forall id | id in s.cmds && id != n :: t.cmds[id] == s.cmds[id])
            && t.cmds[n].waits == waits + (if q.inOrder then Last(q) else {})
            && (forall ri | 0 <= ri < |s.queues| && ri != qi :: t.queues[ri] == s.queues[ri])
            && t.queues[qi] == q.(list := q.list + [n], history := q.history + [n])
    ensures qi < |s.queues| && forall w | w in waits :: w < |s.status|
  {
    hide KnownCommands;
    hide Last;
  }

  lemma EnqueueRest(s: State, qi: nat, waits: set<nat>, barrier: bool)
    requires Inv(s) && Enabled(s, Enqueue(qi, waits, barrier))
    ensures var t := Step(s, Enqueue(qi, waits, barrier)); KnownCommands(t) && forall id: nat | Loose(t, id) :: !t.status[id].Queued?
  {
    hide QueueOk;
    hide Homes;
    hide WaitsOk;
    hide Last;
    var t := Step(s, Enqueue(qi, waits, barrier));
    forall id: nat | Loose(t, id) ensures !t.status[id].Queued? { assert Loose(s, id); }
  }

  lemma NewWaits(s: State, t: State, q: Queue, waits: set<nat>)
    requires QueueOk(s, q) && |s.status| in t.cmds && |t.status| == |s.status| + 1 && forall w | w in waits :: w < |s.status|
    requires t.cmds[|s.status|].waits == waits + if q.inOrder then Last(q) else {}
    ensures WaitsOk(t, |s.status|)
  {
    forall w | w in Last(q) ensures w < |s.status| { assert w in q.history; }
  }

  lemma HistoryCommands(s: State, q: Queue)
    requires QueueOk(s, q)
    ensures forall id | id in q.history :: id in s.cmds && id < |s.status|
  {}

  /** New events, and more to wait for, leave the queues as they are. */
  lemma EventsKeep(s: State, t: State)
    requires Inv(s) && |s.status| <= |t.status| && t.queues == s.queues && t.cmds.Keys == s.cmds.Keys
    requires forall id | id in s.cmds :: id < |s.status| && t.status[id] == s.status[id] && s.cmds[id].waits <= t.cmds[id].waits && WaitsOk(t, id)
    requires forall id: nat | Loose(t, id) :: !t.status[id].Queued?
    ensures Inv(t)
  {
    hide QueueOk;
    hide WaitsOk;
    forall qi | 0 <= qi < |t.queues| ensures QueueOk(t, t.queues[qi]) {
      assert QueueOk(s, s.queues[qi]);
      HistoryCommands(s, s.queues[qi]);
      QueueKept(s, t, s.queues[qi]);
    }
  }

  /** The event of command id moves on, and the command may leave its queue. */
  lemma CommandMoves(s: State, t: State, qi: nat, id: nat)
    requires Inv(s) && qi < |s.queues| == |t.queues| && id in s.queues[qi].history && t.cmds == s.cmds && |t.status| == |s.status| && id < |s.status|
    requires (forall w: nat | w < |s.status| && w != id :: t.status[w] == s.status[w]) && !t.status[id].Queued?
    requires forall ri | 0 <= ri < |s.queues| && ri != qi :: t.queues[ri] == s.queues[ri]
    requires var q, q' := s.queues[qi], t.queues[qi];
             q'.inOrder == q.inOrder && q'.history == q.history && Ascending(q'.list) && forall x :: x in q'.list <==> x in q.list && x != id
    requires Over(s.status[id]) ==> Over(t.status[id])
    requires s.status[id].Queued? ==> id in s.cmds && Executable(s, id)
    ensures Inv(t)
  {
    hide Executable;
    hide Over;
    hide QueueOk;
    hide Homes;
    hide WaitsOk;
    forall ri | 0 <= ri < |t.queues| ensures QueueOk(t, t.queues[ri]) {
      assert QueueOk(s, s.queues[ri]);
      HistoryCommands(s, s.queues[ri]);
      if ri == qi {
        QueueMoves(s, t, s.queues[qi], t.queues[qi], id);
      } else {
        Apart(s, qi, ri, id);
        QueueKept(s, t, s.queues[ri]);
      }
    }
    MovedHomes(s, t);
    forall w | w in t.cmds ensures WaitsOk(t, w) { WaitsKept(s, t, w); }
    forall ri, x | 0 <= ri < |t.queues| && x in t.queues[ri].list ensures x in t.cmds { assert x in s.queues[ri].list; }
    forall w: nat | Loose(t, w) ensures !t.status[w].Queued? { assert Loose(s, w); }
  }

  lemma Apart(s: State, qi: nat, ri: nat, id: nat)
    requires Homes(s) && qi < |s.queues| && ri < |s.queues| && qi != ri && id in s.queues[qi].history
    ensures id !in s.queues[ri].history
  {}

  lemma MovedHomes(s: State, t: State)
    requires Homes(s) && |s.queues| == |t.queues| && t.cmds == s.cmds && forall ri | 0 <= ri < |s.queues| :: t.queues[ri].history == s.queues[ri].history
    ensures Homes(t)
  {
    forall id | id in t.cmds ensures exists ri :: 0 <= ri < |t.queues| && id in t.queues[ri].history {
      var ri :| 0 <= ri < |s.queues| && id in s.queues[ri].history;
      assert id in t.queues[ri].history;
    }
  }

  /** The queue of a command. */
  lemma HomeOf(s: State, id: nat) returns (qi: nat)
    requires Inv(s) && id in s.cmds
    ensures qi < |s.queues| && id in s.queues[qi].history && QueueOk(s, s.queues[qi])
  {
    hide QueueOk;
    hide WaitsOk;
    qi :| 0 <= qi < |s.queues| && id in s.queues[qi].history;
    assert QueueOk(s, s.queues[qi]);
  }

  lemma EventMoves(s: State, t: State, id: nat)
    requires Inv(s) && id < |s.status| == |t.status| && t == s.(status := s.status[id := t.status[id]])
    requires !t.status[id].Queued? && !s.status[id].Queued? && !Over(s.status[id])
    ensures Inv(t)
  {
    hide QueueOk;
    hide WaitsOk;
    hide Homes;
    if id in s.cmds {
      var qi := HomeOf(s, id);
      TakenNotListed(s, s.queues[qi], id);
      CommandMoves(s, t, qi, id);
    } else {
      forall w | w in s.cmds ensures WaitsOk(t, w) { WaitsKept(s, t, w); }
      forall w: nat | Loose(t, w) ensures !t.status[w].Queued? { assert Loose(s, w); }
      EventsKeep(s, t);
    }
  }

  lemma TakenNotListed(s: State, q: Queue, id: nat)
    requires QueueOk(s, q) && id in q.history && id < |s.status| && !s.status[id].Queued?
    ensures id !in q.list && Ascending(q.list)
  {}

  lemma ListedQueued(s: State, q: Queue, id: nat)
    requires QueueOk(s, q) && id in q.list
    ensures id in q.history && id < |s.status| && s.status[id].Queued? && Ascending(q.list)
  {}

  lemma SubmitKeeps(s: State, qi: nat)
    requires Inv(s) && Enabled(s, Submit(qi))
    ensures Inv(Step(s, Submit(qi)))
  {
    hide QueueOk;
    hide WaitsOk;
    hide Homes;
    hide Peek;
    hide Executable;
    PeekKnown(s, qi);
    var id := Peek(s, s.queues[qi]).value;
    assert QueueOk(s, s.queues[qi]);
    ListedQueued(s, s.queues[qi], id);
    WithoutAscending(s.queues[qi].list, id);
    CommandMoves(s, Step(s, Submit(qi)), qi, id);
  }

  lemma RefuseKeeps(s: State, qi: nat)
    requires Inv(s) && Enabled(s, Refuse(qi))
    ensures Inv(Step(s, Refuse(qi)))
  {
    hide QueueOk;
    hide Homes;
    hide Peek;
    hide Executable;
    PeekKnown(s, qi);
    var t, id := Step(s, Refuse(qi)), Peek(s, s.queues[qi]).value;
    forall w | w in s.cmds ensures WaitsOk(t, w) { assert WaitsOk(s, w); }
    forall w: nat | Loose(t, w) ensures !t.status[w].Queued? { if w < |s.status| { assert Loose(s, w); } }
    EventsKeep(s, t);
  }

  /** Every action keeps the invariant. */
  lemma StepKeeps(s: State, a: Action)
    requires Inv(s) && Enabled(s, a)
    ensures Inv(Step(s, a))
  {
    hide Inv;
    hide Peek;
    match a
    case Enqueue(qi, waits, barrier) => EnqueueKeeps(s, qi, waits, barrier);
    case CreateUser => UserKeeps(s);
    case SetUser(id, ok) => EventMoves(s, Step(s, a), id);
    case Refuse(qi) => RefuseKeeps(s, qi);
    case Submit(qi) => SubmitKeeps(s, qi);
    case Start(id) => EventMoves(s, Step(s, a), id);
    case Finish(id, ok) => EventMoves(s, Step(s, a), id);
  }

  lemma UserKeeps(s: State)
    requires Inv(s)
    ensures Enabled(s, CreateUser) && Inv(Step(s, CreateUser))
  {
    hide QueueOk;
    hide Homes;
    hide WaitsOk;
    var t := Step(s, CreateUser);
    forall w | w in s.cmds ensures WaitsOk(t, w) { WaitsKept(s, t, w); }
    forall w: nat | Loose(t, w) ensures !t.status[w].Queued? { if w < |s.status| { assert Loose(s, w); } }
    EventsKeep(s, t);
  }

  ghost predicate Leads(s: State, actions: seq<Action>, t: State)
    decreases actions
  {
    if actions == [] then s == t else Enabled(s, actions[0]) && Leads(Step(s, actions[0]), actions[1..], t)
  }

  ghost predicate Initial(s: State) {
    s.status == [] && s.cmds == map[] && forall qi | 0 <= qi < |s.queues| :: s.queues[qi].list == [] && s.queues[qi].history == []
  }

  lemma {:induction false} RunKeeps(s: State, actions: seq<Action>, t: State)
    requires Inv(s) && Leads(s, actions, t)
    ensures Inv(t)
    decreases actions
  {
    hide Inv;
    hide Enabled;
    hide Step;
    if actions != [] {
      StepKeeps(s, actions[0]);
      RunKeeps(Step(s, actions[0]), actions[1..], t);
    }
  }

  /** Earlier commands of an in-order queue are over when a later one has been taken. */
  lemma {:induction false} PredecessorsOver(s: State, q: Queue, i: nat, j: nat)
    requires QueueOk(s, q) && q.inOrder && i < j < |q.history| && forall k :: 0 <= k < |q.history| ==> q.history[k] < |s.status|
    requires !s.status[q.history[j]].Queued?
    ensures Over(s.status[q.history[i]])
    decreases j
  {
    assert Linked(s, q, j - 1);
    if i < j - 1 { PredecessorsOver(s, q, i, j - 1); }
  }

  /** In-order serialisation: in every reachable state the commands of an in-order queue
      before one that has been submitted are over, so commands start in the order in
      which they were enqueued, and no two are in flight at once. */
  lemma InOrderSerial(s: State, actions: seq<Action>, t: State, qi: nat)
    requires Initial(s) && Leads(s, actions, t) && qi < |t.queues| && t.queues[qi].inOrder
    ensures var h := t.queues[qi].history;
            && Ascending(h) && (forall k :: 0 <= k < |h| ==> h[k] < |t.status|)
            && forall i, j :: 0 <= i < j < |h| && !t.status[h[j]].Queued? ==> Over(t.status[h[i]])
  {
    assert Inv(s);
    RunKeeps(s, actions, t);
    var q := t.queues[qi];
    assert QueueOk(t, q);
    hide Inv;
    hide Leads;
    forall k | 0 <= k < |q.history| ensures q.history[k] < |t.status| { assert q.history[k] in q.history; }
    hide Linked;
    forall i, j | 0 <= i < j < |q.history| && !t.status[q.history[j]].Queued? ensures Over(t.status[q.history[i]]) {
      PredecessorsOver(t, q, i, j);
    }
  }

  /** Every event that command id waits for, be it of a command, a clone or the user, is
      complete or has failed. */
  ghost predicate Free(s: State, id: nat)
    requires id in s.cmds
  {
    forall w | w in s.cmds[id].waits :: w < |s.status| && (s.status[w].Complete? || s.status[w].Failed?)
  }

  /** What Peek of an in-order queue returns: the first command, when it is free. */
  lemma PeekInOrderExact(s: State, list: seq<nat>, id: nat)
    requires forall x | x in list :: x in s.cmds
    ensures PeekInOrder(s, list) == Some(id) <==> list != [] && id == list[0] && Free(s, id)
  {}

  /** Position k of the list is the first whose command is free, and has a marker or
      barrier only if it is the front. */
  ghost predicate FirstFree(s: State, list: seq<nat>, from: nat, k: nat)
    requires forall x | x in list :: x in s.cmds
  {
    && from <= k < |list| && Free(s, list[k]) && (s.cmds[list[k]].barrier ==> k == 0)
    && forall j | from <= j < k :: !Free(s, list[j])
  }

  lemma {:induction false} PeekFromExact(s: State, list: seq<nat>, from: nat, id: nat)
    requires from <= |list| && forall x | x in list :: x in s.cmds
    ensures PeekFrom(s, list, from) == Some(id) <==> exists k: nat :: FirstFree(s, list, from, k) && list[k] == id
    decreases |list| - from
  {
    if from < |list| {
      FreeExecutable(s, list[from]);
      PeekFromExact(s, list, from + 1, id);
      hide Free;
      hide Executable;
      if Free(s, list[from]) {
        assert FirstFree(s, list, from, from) || (s.cmds[list[from]].barrier && from > 0);
      } else {
        forall k: nat ensures FirstFree(s, list, from, k) <==> FirstFree(s, list, from + 1, k) {}
      }
    }
  }

  lemma FreeExecutable(s: State, id: nat)
    requires id in s.cmds
    ensures Free(s, id) <==> Executable(s, id)
  {}

  /** Peek of an out-of-order queue returns the first command that is free; if that is a
      marker or barrier, only from the front. */
  lemma PeekExact(s: State, list: seq<nat>, id: nat)
    requires forall x | x in list :: x in s.cmds
    ensures PeekFrom(s, list, 0) == Some(id) <==> exists k: nat :: FirstFree(s, list, 0, k) && list[k] == id
  {
    PeekFromExact(s, list, 0, id);
  }

  /** No marker or barrier leaves an out-of-order queue while an earlier command is in
      it. */
  lemma BarrierLast(s: State, qi: nat, id: nat)
    requires Inv(s) && Enabled(s, Submit(qi)) && !s.queues[qi].inOrder && Peek(s, s.queues[qi]) == Some(id) && id in s.cmds && s.cmds[id].barrier
    ensures id !in Step(s, Submit(qi)).queues[qi].list && forall x | x in Step(s, Submit(qi)).queues[qi].list :: x > id
  {
    var list := s.queues[qi].list;
    assert QueueOk(s, s.queues[qi]);
    PeekExact(s, list, id);
    hide Peek;
    var k: nat :| FirstFree(s, list, 0, k) && list[k] == id;
    assert k == 0;
    forall x | x in Without(list, id) ensures x > id {
      var j :| 0 <= j < |list| && list[j] == x;
      assert j > 0;
    }
  }

  /** No command has been taken from its queue before it was free. */
  ghost predicate NoneEarly(s: State) { forall id | id in s.cmds :: id < |s.status| && (s.status[id].Queued? || Free(s, id)) }

  /** What is over stays so, and a command waits for what it did before. */
  lemma OnlyMore(s: State, a: Action)
    requires Inv(s) && Enabled(s, a)
    ensures var t := Step(s, a);
            && |s.status| <= |t.status| && s.cmds.Keys <= t.cmds.Keys
            && (forall w: nat | w < |s.status| && (s.status[w].Complete? || s.status[w].Failed?) :: t.status[w] == s.status[w])
            && forall id | id in s.cmds :: s.cmds[id].waits <= t.cmds[id].waits
  {
    assert forall id | id in s.cmds :: id < |s.status|;
    hide QueuesOk;
    hide Homes;
    hide WaitsOk;
    if a.Submit? || a.Refuse? {
      PeekKnown(s, a.qi);
      var id := Peek(s, s.queues[a.qi]).value;
      assert id in s.queues[a.qi].list;
      QueuedListed(s, a.qi, id);
    }
    hide Peek;
  }

  lemma QueuedListed(s: State, qi: nat, id: nat)
    requires Inv(s) && qi < |s.queues| && id in s.queues[qi].list
    ensures id in s.cmds && id < |s.status| && s.status[id].Queued?
  {
    assert QueueOk(s, s.queues[qi]);
  }

  lemma PeekFree(s: State, qi: nat)
    requires KnownCommands(s) && qi < |s.queues| && Peek(s, s.queues[qi]).Some?
    ensures var id := Peek(s, s.queues[qi]).value; id in s.queues[qi].list && id in s.cmds && Free(s, id)
  {
    PeekKnown(s, qi);
  }

  /** A command that is not queued after an action is a free one, with the same to wait
      for. */
  lemma TakenFree(s: State, a: Action, id: nat)
    requires Inv(s) && NoneEarly(s) && Enabled(s, a) && id in Step(s, a).cmds
    ensures var t := Step(s, a);
            id < |t.status| && (t.status[id].Queued? || (id in s.cmds && Free(s, id) && t.cmds[id].waits == s.cmds[id].waits))
  {
    hide Inv;
    hide Peek;
    hide Executable;
    hide Without;
    hide Free;
    if a.Submit? || a.Refuse? {
      PeekFree(s, a.qi);
      QueuedListed(s, a.qi, Peek(s, s.queues[a.qi]).value);
    }
    hide Last;
    hide KnownCommands;
  }

  lemma StaysFree(s: State, t: State, id: nat)
    requires id in s.cmds && id in t.cmds && Free(s, id) && t.cmds[id].waits == s.cmds[id].waits && |s.status| <= |t.status|
    requires forall w: nat | w < |s.status| && (s.status[w].Complete? || s.status[w].Failed?) :: t.status[w] == s.status[w]
    ensures Free(t, id)
  {}

  lemma StepNotEarly(s: State, a: Action)
    requires Inv(s) && NoneEarly(s) && Enabled(s, a)
    ensures NoneEarly(Step(s, a))
  {
    OnlyMore(s, a);
    hide Inv;
    hide Enabled;
    hide Step;
    hide Free;
    var t := Step(s, a);
    forall id | id in t.cmds ensures id < |t.status| && (t.status[id].Queued? || Free(t, id)) {
      TakenFree(s, a, id);
      if !t.status[id].Queued? { StaysFree(s, t, id); }
    }
  }

  lemma {:induction false} RunNotEarly(s: State, actions: seq<Action>, t: State)
    requires Inv(s) && NoneEarly(s) && Leads(s, actions, t)
    ensures NoneEarly(t)
    decreases actions
  {
    hide Inv;
    hide NoneEarly;
    hide Enabled;
    hide Step;
    if actions != [] {
      StepKeeps(s, actions[0]);
      StepNotEarly(s, actions[0]);
      RunNotEarly(Step(s, actions[0]), actions[1..], t);
    }
  }

  lemma {:induction false} RunMore(s: State, actions: seq<Action>, t: State)
    requires Inv(s) && Leads(s, actions, t)
    ensures s.cmds.Keys <= t.cmds.Keys && forall id | id in s.cmds :: s.cmds[id].waits <= t.cmds[id].waits
    decreases actions
  {
    hide Inv;
    hide Enabled;
    hide Step;
    if actions != [] {
      StepKeeps(s, actions[0]);
      OnlyMore(s, actions[0]);
      RunMore(Step(s, actions[0]), actions[1..], t);
    }
  }

  lemma Reached(s: State, actions: seq<Action>, t: State)
    requires Initial(s) && Leads(s, actions, t)
    ensures Inv(t) && NoneEarly(t)
  {
    assert Inv(s) && NoneEarly(s);
    RunKeeps(s, actions, t);
    RunNotEarly(s, actions, t);
  }

  /** Wait lists are kept: whatever a command was enqueued with, commands, clones or user
      events, is complete or has failed before the command is taken; in an in-order queue
      so is the command enqueued before it. */
  lemma WaitsKeptTo(s: State, before: seq<Action>, u: State, qi: nat, waits: set<nat>, barrier: bool, after: seq<Action>, t: State)
    requires Initial(s) && Leads(s, before, u) && Enabled(u, Enqueue(qi, waits, barrier))
    requires Leads(Step(u, Enqueue(qi, waits, barrier)), after, t)
    ensures var n, h := |u.status|, u.queues[qi].history;
            && n in t.cmds && n < |t.status|
            && (t.status[n].Queued? || forall w | w in waits || (u.queues[qi].inOrder && h != [] && w == h[|h| - 1]) ::
                  w < |t.status| && (t.status[w].Complete? || t.status[w].Failed?))
  {
    Reached(s, before, u);
    StepKeeps(u, Enqueue(qi, waits, barrier));
    StepNotEarly(u, Enqueue(qi, waits, barrier));
    EnqueueShape(u, qi, waits, barrier);
    hide Inv;
    hide NoneEarly;
    hide Leads;
    var v, n := Step(u, Enqueue(qi, waits, barrier)), |u.status|;
    RunMore(v, after, t);
    RunNotEarly(v, after, t);
    hide Step;
    hide Enabled;
    assert n in v.cmds && v.cmds[n].waits <= t.cmds[n].waits;
    FreeOrQueued(t, n);
  }

  lemma FreeOrQueued(s: State, id: nat)
    requires NoneEarly(s) && id in s.cmds
    ensures id < |s.status| && (s.status[id].Queued? || Free(s, id))
  {}

  /** And so is every clone that a refused command has been given to wait for. */
  lemma CloneAwaited(s: State, before: seq<Action>, u: State, qi: nat, after: seq<Action>, t: State)
    requires Initial(s) && Leads(s, before, u) && Enabled(u, Refuse(qi)) && Leads(Step(u, Refuse(qi)), after, t)
    ensures var id, clone := Peek(u, u.queues[qi]).value, |u.status|;
            && id in t.cmds && id < |t.status| && clone in t.cmds[id].waits
            && (t.status[id].Queued? || (clone < |t.status| && (t.status[clone].Complete? || t.status[clone].Failed?)))
  {
    Reached(s, before, u);
    StepKeeps(u, Refuse(qi));
    StepNotEarly(u, Refuse(qi));
    PeekKnown(u, qi);
    hide Inv;
    hide NoneEarly;
    hide Leads;
    hide Peek;
    var v, id := Step(u, Refuse(qi)), Peek(u, u.queues[qi]).value;
    assert |u.status| in v.cmds[id].waits;
    RunMore(v, after, t);
    RunNotEarly(v, after, t);
    hide Step;
    hide Enabled;
    FreeOrQueued(t, id);
  }

  /** Nothing is on a device, no clone on its way, and no user event pending. */
  ghost predicate Quiet(s: State) { forall id: nat | id < |s.status| :: s.status[id].Queued? || Over(s.status[id]) }

  lemma {:induction false} Earliest(s: State, n: nat) returns (id: nat)
    requires exists k: nat :: k < n && k in s.cmds && k < |s.status| && s.status[k].Queued?
    ensures id < n && id in s.cmds && id < |s.status| && s.status[id].Queued?
    ensures forall k: nat | k < id && k in s.cmds && k < |s.status| :: !s.status[k].Queued?
  {
    if exists k: nat :: k < n - 1 && k in s.cmds && k < |s.status| && s.status[k].Queued? {
      id := Earliest(s, n - 1);
    } else {
      id := n - 1;
    }
  }

  /** Progress: when everything is quiet but commands remain queued, some queue's Peek
      returns one. */
  lemma Progress(s: State) returns (qi: nat)
    requires Inv(s) && Quiet(s) && exists ri :: 0 <= ri < |s.queues| && s.queues[ri].list != []
    ensures qi < |s.queues| && Peek(s, s.queues[qi]).Some?
  {
    hide Homes;
    hide Linked;
    var ri :| 0 <= ri < |s.queues| && s.queues[ri].list != [];
    var first := s.queues[ri].list[0];
    assert first in s.queues[ri].list && QueueOk(s, s.queues[ri]);
    assert first in s.cmds && s.status[first].Queued?;
    var id := Earliest(s, first + 1);
    EarliestExecutable(s, id);
    qi := HomeOf(s, id);
    var q := s.queues[qi];
    assert id in q.list;
    FirstListed(s, q, id);
  }

  lemma EarliestExecutable(s: State, id: nat)
    requires Inv(s) && Quiet(s) && id in s.cmds && forall k: nat | k < id && k in s.cmds && k < |s.status| :: !s.status[k].Queued?
    ensures Executable(s, id)
  {
    hide QueuesOk;
    hide Homes;
    assert WaitsOk(s, id);
    forall w | w in s.cmds[id].waits ensures w < |s.status| && Over(s.status[w]) {
      if w !in s.cmds { assert Loose(s, w); }
    }
  }

  lemma FirstListed(s: State, q: Queue, id: nat)
    requires QueueOk(s, q) && id in q.list && id in s.cmds && Executable(s, id) && forall x | x in q.list :: x in s.cmds
    requires forall k: nat | k < id && k in s.cmds && k < |s.status| :: !s.status[k].Queued?
    ensures Peek(s, q).Some?
  {
    var k :| 0 <= k < |q.list| && q.list[k] == id;
    var e := q.list[0];
    assert e in q.list && e in q.history && s.status[e].Queued?;
    assert e >= id && k == 0;
  }

  /** CLInOrderCommandQueue */
  class InOrderQueue {
    var queue: seq<nat>
    var lastEvent: Option<nat>

    constructor ()
      ensures queue == [] && lastEvent == None
    {
      queue, lastEvent := [], None;
    }

    method Peek(s: State) returns (command: Option<nat>)
      requires forall id | id in queue :: id in s.cmds
      ensures command == PeekInOrder(s, queue)
      ensures command == if queue != [] && Free(s, queue[0]) then Some(queue[0]) else None
    {
      if |queue| == 0 { return None; }
      var first := queue[0];
      if Executable(s, first) { command := Some(first); } else { command := None; }
    }

    /** Appends command id, and adds its predecessor to what it waits for. */
    method Enqueue(id: nat, waits: set<nat>) returns (waitEvents: set<nat>)
      modifies this
      ensures queue == old(queue) + [id] && lastEvent == Some(id)
      ensures waitEvents == waits + match old(lastEvent) case None => {} case Some(l) => {l}
    {
      waitEvents := waits;
      if lastEvent.Some? { waitEvents := waitEvents + {lastEvent.value}; }
      lastEvent := Some(id);
      queue := queue + [id];
    }

    /** Takes the first command, which is the one Peek returned. */
    method Dequeue(id: nat)
      requires queue != [] && queue[0] == id && Ascending(queue)
      modifies this`queue
      ensures queue == Without(old(queue), id)
    {
      queue := queue[1..];
      WithoutAbsent(queue, id);
    }
  }

  lemma {:induction false} WithoutAbsent(list: seq<nat>, id: nat)
    requires id !in list
    ensures Without(list, id) == list
  {
    if list != [] { WithoutAbsent(list[1..], id); }
  }

  lemma {:induction false} WithoutAppend(list: seq<nat>, last: nat, id: nat)
    ensures Without(list + [last], id) == Without(list, id) + if last == id then [] else [last]
  {
    if list == [] {
      assert Without([last], id) == if last == id then [] else [last];
    } else {
      assert (list + [last])[1..] == list[1..] + [last];
      WithoutAppend(list[1..], last, id);
    }
  }

  /** CLOutOfOrderCommandQueue */
  class OutOfOrderQueue {
    var commands: seq<nat>

    constructor ()
      ensures commands == []
    {
      commands := [];
    }

    /** Walks the list to the first executable command. */
    method Peek(s: State) returns (result: Option<nat>)
      requires forall id | id in commands :: id in s.cmds
      ensures result == PeekFrom(s, commands, 0)
      ensures forall id: nat :: result == Some(id) <==> exists k: nat :: FirstFree(s, commands, 0, k) && commands[k] == id
    {
      forall id: nat ensures PeekFrom(s, commands, 0) == Some(id) <==> exists k: nat :: FirstFree(s, commands, 0, k) && commands[k] == id {
        PeekExact(s, commands, id);
      }
      result := None;
      var k := 0;
      while k < |commands|
        invariant k <= |commands| && result == None
        invariant PeekFrom(s, commands, 0) == PeekFrom(s, commands, k)
      {
        var command := commands[k];
        if !Executable(s, command) { k := k + 1; continue; }
        if s.cmds[command].barrier {
          if k == 0 { result := Some(command); }
        } else {
          result := Some(command);
        }
        return;
      }
    }

    method Enqueue(id: nat)
      modifies this
      ensures commands == old(commands) + [id]
    {
      commands := commands + [id];
    }

    method Dequeue(id: nat)
      modifies this
      ensures commands == Without(old(commands), id)
    {
      var list := commands;
      commands := [];
      for k := 0 to |list|
        invariant commands == Without(list[..k], id)
      {
        assert list[..k + 1] == list[..k] + [list[k]];
        WithoutAppend(list[..k], list[k], id);
        if list[k] != id { commands := commands + [list[k]]; }
      }
      assert list[..|list|] == list;
    }
  }
}
