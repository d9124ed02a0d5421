/** One event: threads that set its status, register callbacks on it and wait for it,
    under every interleaving of their critical sections. */
module Events {
  import opened Filters

  const SUCCESS := 0
  const INVALID_EVENT := -58
  const INVALID_OPERATION := -59

  /** kind is the status the callback asks for: 2 submitted, 1 running, 0 complete. */
  datatype Callback = Callback(id: nat, kind: nat)

  predicate Passed(c: Callback, status: int) { status <= c.kind }

  /** A negative status is an error, and counts as complete. */
  predicate Hit(c: Callback, status: int) { c.kind == if status < 0 then 0 else status }

  predicate Final(status: int) { status <= 0 }

  /** written is every value status_ has had, of which the last is status_ itself.
      SetStatus writes it under no lock that callbacks_ is under, and looks for hits
      later: scanned says which writes have been looked up. added says how many values
      had been written when a callback was added. due are callbacks chosen to be called
      back, ran those called. */
  datatype State = State(
    written: seq<int>, begun: multiset<int>, scanned: set<nat>,
    callbacks: set<Callback>, added: map<Callback, nat>, due: multiset<Callback>, ran: multiset<Callback>,
    waiting: set<nat>, released: set<nat>)

  function Status(s: State): int
    requires s.written != []
  {
    s.written[|s.written| - 1]
  }

  /** A thread enters SetStatus; writes; looks for hits; a thread registers a callback;
      calls one that is due; waits. */
  datatype Action =
    | Call(status: int) | Write(status: int) | Scan(k: nat)
    | Add(c: Callback) | Run(c: Callback) | Wait(thread: nat)

  predicate Enabled(s: State, a: Action) {
    s.written != [] &&
    match a
    case Call(_) => true
    case Write(v) => v in s.begun
    case Scan(k) => k < |s.written| && k !in s.scanned
    case Add(c) => c !in s.added
    case Run(c) => c in s.due
    case Wait(t) => t !in s.waiting && t !in s.released
  }

  function Hits(callbacks: set<Callback>, status: int): set<Callback> { set c | c in callbacks && Hit(c, status) }

  /** A write of a final status wakes every waiter. Wait does not look again. */
  function Step(s: State, a: Action): State
    requires Enabled(s, a)
  {
    match a
    case Call(v) => s.(begun := s.begun + multiset{v})
    case Write(v) =>
      var t := s.(written := s.written + [v], begun := s.begun - multiset{v});
      if Final(v) then t.(waiting := {}, released := s.released + s.waiting) else t
    case Scan(k) => s.(scanned := s.scanned + {k}, due := s.due + multiset(Hits(s.callbacks, s.written[k])))
    case Add(c) =>
      var t := s.(added := s.added[c := |s.written|]);
      if Passed(c, Status(s)) then t.(due := s.due + multiset{c}) else t.(callbacks := s.callbacks + {c})
    case Run(c) => s.(due := s.due - multiset{c}, ran := s.ran + multiset{c})
    case Wait(t) =>
      if Final(Status(s)) then s.(released := s.released + {t}) else s.(waiting := s.waiting + {t})
  }

  predicate Leads(s: State, actions: seq<Action>, t: State)
    decreases actions
  {
    if actions == [] then s == t else Enabled(s, actions[0]) && Leads(Step(s, actions[0]), actions[1..], t)
  }

  function Initial(status: int): State {
    State([status], multiset{}, {0}, {}, map[], multiset{}, multiset{}, {}, {})
  }

  /** Statuses fall, and nothing is written after a final one. */
  predicate Falling(w: seq<int>) { forall i, j :: 0 <= i < j < |w| ==> w[i] > w[j] && w[i] > 0 }

  function Calls(s: State, c: Callback): nat { s.due[c] + s.ran[c] }

  /** A write made after c was registered has been looked up, and asks for c. */
  predicate Struck(s: State, c: Callback, k: nat)
    requires c in s.added
  {
    s.added[c] <= k < |s.written| && k in s.scanned && Hit(c, s.written[k])
  }

  ghost predicate Registered(s: State, c: Callback)
    requires c in s.added
  {
    1 <= s.added[c] <= |s.written| && !Passed(c, s.written[s.added[c] - 1])
  }

  ghost predicate Counted(s: State, c: Callback) {
    if c !in s.added then c !in s.callbacks && Calls(s, c) == 0
    else
      && 1 <= s.added[c] <= |s.written|
      && (c in s.callbacks <==> Registered(s, c))
      && Calls(s, c) == if !Registered(s, c) || exists k: nat :: Struck(s, c, k) then 1 else 0
  }

  ghost predicate Inv(s: State) {
    && s.written != []
    && (forall c :: Counted(s, c))
    && (forall k | k in s.scanned :: k < |s.written|)
  }

  ghost predicate Quiescent(s: State) {
    (forall k: nat | k < |s.written| :: k in s.scanned) && s.due == multiset{}
  }

  /** Writes of a falling status never hit one callback twice, and never one that was
      registered after them. */
  lemma OneHit(s: State, c: Callback, k: nat, j: nat)
    requires Falling(s.written) && k < |s.written| && j < |s.written| && Hit(c, s.written[k]) && Hit(c, s.written[j])
    ensures k == j
  {}

  lemma HitAfter(s: State, c: Callback, k: nat)
    requires Falling(s.written) && k < |s.written| && c in s.added && Registered(s, c) && Hit(c, s.written[k])
    ensures s.added[c] <= k
  {}

  lemma ScanCounts(s: State, k: nat, c: Callback)
    requires Inv(s) && Falling(s.written) && Enabled(s, Scan(k))
    ensures Counted(Step(s, Scan(k)), c)
  {
    var t := Step(s, Scan(k));
    assert Counted(s, c);
    if c in s.added {
      assert forall j: nat :: Struck(s, c, j) ==> Struck(t, c, j);
      assert forall j: nat :: Struck(t, c, j) ==> Struck(s, c, j) || j == k;
      if Registered(s, c) && Hit(c, s.written[k]) {
        HitAfter(s, c, k);
        assert Struck(t, c, k);
        forall j: nat | Struck(s, c, j) ensures false { OneHit(s, c, j, k); }
      }
    }
  }

  lemma WriteCounts(s: State, v: int, c: Callback)
    requires Inv(s) && Enabled(s, Write(v))
    ensures Counted(Step(s, Write(v)), c)
  {
    var t := Step(s, Write(v));
    assert Counted(s, c);
    if c in s.added {
      forall k: nat ensures Struck(s, c, k) == Struck(t, c, k) {
        if k == |s.written| { assert k !in s.scanned; }
      }
    }
  }

  lemma AddCounts(s: State, d: Callback, c: Callback)
    requires Inv(s) && Enabled(s, Add(d))
    ensures Counted(Step(s, Add(d)), c)
  {
    var t := Step(s, Add(d));
    assert Counted(s, c);
    if c in s.added {
      assert forall k: nat :: Struck(s, c, k) == Struck(t, c, k);
    } else if c == d {
      assert forall k: nat :: !Struck(t, c, k);
    }
  }

  lemma SameCounts(s: State, t: State, c: Callback)
    requires Counted(s, c) && t.written == s.written && t.scanned == s.scanned && t.added == s.added && t.callbacks == s.callbacks
    requires Calls(t, c) == Calls(s, c)
    ensures Counted(t, c)
  {
    if c in s.added { assert forall k: nat :: Struck(s, c, k) == Struck(t, c, k); }
  }

  lemma StepCounts(s: State, a: Action, c: Callback)
    requires Inv(s) && Enabled(s, a) && Falling(s.written)
    ensures Counted(Step(s, a), c)
  {
    hide Hits;
    assert Counted(s, c);
    match a
    case Call(_) => SameCounts(s, Step(s, a), c);
    case Write(v) => WriteCounts(s, v, c);
    case Scan(k) => ScanCounts(s, k, c);
    case Add(d) => AddCounts(s, d, c);
    case Run(_) => SameCounts(s, Step(s, a), c);
    case Wait(_) => SameCounts(s, Step(s, a), c);
  }

  lemma StepKeeps(s: State, a: Action)
    requires Inv(s) && Enabled(s, a) && Falling(s.written)
    ensures Inv(Step(s, a))
  {
    hide Counted;
    hide Falling;
    hide Hits;
    hide Passed;
    forall c ensures Counted(Step(s, a), c) { StepCounts(s, a, c); }
  }

  lemma FallingPrefix(w: seq<int>, v: seq<int>)
    requires w <= v && Falling(v)
    ensures Falling(w)
  {}

  lemma {:induction false} WrittenGrows(s: State, actions: seq<Action>, t: State)
    requires Leads(s, actions, t)
    ensures s.written <= t.written && s.added.Keys <= t.added.Keys
    decreases actions
  {
    if actions != [] { WrittenGrows(Step(s, actions[0]), actions[1..], t); }
  }

  lemma {:induction false} RunKeeps(s: State, actions: seq<Action>, t: State)
    requires Inv(s) && Leads(s, actions, t) && Falling(t.written)
    ensures Inv(t)
    decreases actions
  {
    if actions != [] {
      var u := Step(s, actions[0]);
      WrittenGrows(u, actions[1..], t);
      FallingPrefix(s.written, t.written);
      StepKeeps(s, actions[0]);
      RunKeeps(u, actions[1..], t);
    }
  }

  /** The status had passed what c asks for when c was added, or the status c asks for
      was written later. */
  ghost predicate Reached(s: State, c: Callback)
    requires c in s.added
  {
    && 1 <= s.added[c] <= |s.written|
    && (Passed(c, s.written[s.added[c] - 1]) || exists k: nat :: s.added[c] <= k < |s.written| && Hit(c, s.written[k]))
  }

  /** Exactly once: whatever the interleaving of falling statuses with registrations, no
      callback is called twice, and when every thread is through, exactly those have been
      called whose status was reached. */
  lemma ExactlyOnce(start: int, actions: seq<Action>, t: State, c: Callback)
    requires Leads(Initial(start), actions, t) && Falling(t.written)
    ensures t.ran[c] <= 1 && (c !in t.added ==> t.ran[c] == 0)
    ensures Quiescent(t) && c in t.added ==> t.ran[c] == if Reached(t, c) then 1 else 0
  {
    assert Inv(Initial(start));
    RunKeeps(Initial(start), actions, t);
    assert Counted(t, c);
    if Quiescent(t) && c in t.added {
      forall k: nat | t.added[c] <= k < |t.written| && Hit(c, t.written[k]) ensures Struck(t, c, k) { assert k in t.scanned; }
    }
  }

  /** A status between the one at registration and the current one was never written. */
  ghost predicate Skipped(s: State, c: Callback)
    requires c in s.added && s.written != []
  {
    && 1 <= s.added[c] <= |s.written| && s.written[s.added[c] - 1] > c.kind > Status(s)
    && forall k: nat | s.added[c] <= k < |s.written| :: s.written[k] != c.kind
  }

  /** Which callbacks that is: those whose status the event has got to, unless it skipped
      the very status asked for. Completion cannot be skipped. */
  lemma ReachedExactly(start: int, actions: seq<Action>, t: State, c: Callback)
    requires Leads(Initial(start), actions, t) && Falling(t.written) && c in t.added
    ensures t.written != []
    ensures Reached(t, c) <==> Status(t) <= c.kind && (c.kind == 0 || !Skipped(t, c))
    ensures c.kind == 0 ==> (Reached(t, c) <==> Status(t) <= 0)
  {
    assert Inv(Initial(start));
    RunKeeps(Initial(start), actions, t);
    assert Counted(t, c);
    var last: nat := |t.written| - 1;
    var a := t.added[c];
    if a - 1 < last { assert t.written[a - 1] > t.written[last]; }
    if Registered(t, c) && Passed(c, Status(t)) {
      assert last >= a;
      if c.kind == 0 || Status(t) == c.kind { assert Hit(c, t.written[last]); }
    }
    forall k: nat | a <= k < |t.written| && Hit(c, t.written[k]) ensures Passed(c, Status(t)) {
      if k < last { assert t.written[k] > t.written[last]; }
    }
  }

  function SkipEnd(c: Callback): State {
    State([2, 0], multiset{}, {0, 1}, {c}, map[c := 1], multiset{}, multiset{}, {}, {})
  }

  lemma SkipEnds(c: Callback)
    requires c.kind == 1
    ensures var t := SkipEnd(c);
            Falling(t.written) && Quiescent(t) && Passed(c, Status(t)) && Skipped(t, c) && t.ran[c] == 0
  {}

  lemma SkipRun(c: Callback)
    requires c.kind == 1
    ensures Leads(Armed(c), [Call(0), Write(0), Scan(1)], SkipEnd(c))
  {
    hide Leads;
    var s, t := Armed(c), SkipEnd(c);
    var s1, s2 := s.(begun := multiset{0}), s.(written := [2, 0]);
    assert Step(s, Call(0)) == s1 && Step(s1, Write(0)) == s2;
    assert Hits({c}, 0) == {};
    assert Step(s2, Scan(1)) == t;
    Three(s, Call(0), s1, Write(0), s2, Scan(1), t);
  }

  /** An event that goes from submitted straight to complete never calls back for
      running. */
  lemma SkipExample(c: Callback) returns (actions: seq<Action>, t: State)
    requires c.kind == 1
    ensures Leads(Initial(2), actions, t) && Falling(t.written) && Quiescent(t) && c in t.added
    ensures t.written == [2, 0] && Passed(c, Status(t)) && Skipped(t, c) && t.ran[c] == 0
  {
    ArmedIs(c);
    SkipRun(c);
    SkipEnds(c);
    t := SkipEnd(c);
    hide Step;
    hide Skipped;
    hide Quiescent;
    actions := [Add(c)] + [Call(0), Write(0), Scan(1)];
    assert actions[1..] == [Call(0), Write(0), Scan(1)];
  }

  /** From any state the threads already in SetStatus and AddCallback can finish. */
  lemma {:induction false} Settles(s: State) returns (actions: seq<Action>, t: State)
    requires s.written != []
    ensures Leads(s, actions, t) && Quiescent(t) && t.written == s.written && t.added == s.added && t.begun == s.begun
    ensures forall a | a in actions :: !a.Call?
    decreases |Unscanned(s)|, |s.due|
  {
    if k: nat :| k < |s.written| && k !in s.scanned {
      var u := Step(s, Scan(k));
      assert Unscanned(s) == Unscanned(u) + {k};
      var rest;
      rest, t := Settles(u);
      actions := [Scan(k)] + rest;
    } else if c :| c in s.due {
      var u := Step(s, Run(c));
      assert Unscanned(s) == Unscanned(u);
      var rest;
      rest, t := Settles(u);
      actions := [Run(c)] + rest;
    } else {
      actions, t := [], s;
    }
  }

  function Unscanned(s: State): set<nat> { set k: nat | k < |s.written| && k !in s.scanned }

  /** No lost wakeup: a thread is still waiting only while the status is not final, and
      one that has been let go sees a final status, although Wait tests only once. */
  lemma {:induction false} WaitersReleased(s: State, actions: seq<Action>, t: State)
    requires s.written != [] && Leads(s, actions, t) && Falling(t.written)
    requires (s.waiting != {} ==> !Final(Status(s))) && (s.released != {} ==> Final(Status(s)))
    ensures t.written != [] && (t.waiting != {} ==> !Final(Status(t))) && (t.released != {} ==> Final(Status(t)))
    decreases actions
  {
    if actions != [] {
      var u := Step(s, actions[0]);
      WrittenGrows(u, actions[1..], t);
      FallingPrefix(u.written, t.written);
      if actions[0].Write? {
        assert u.written[|s.written| - 1] == Status(s) && Status(s) > 0;
      }
      WaitersReleased(u, actions[1..], t);
    }
  }

  /** SetUserEventStatus refuses a final event, but looks before it takes the lock: the
      guard holds when the call is entered. */
  ghost predicate UserRun(s: State, actions: seq<Action>)
    decreases actions
  {
    actions != [] ==>
      && Enabled(s, actions[0])
      && (actions[0].Call? ==> Final(actions[0].status) && !Final(Status(s)))
      && UserRun(Step(s, actions[0]), actions[1..])
  }

  ghost predicate UserInv(s: State, c: Callback) {
    && s.written != [] && 0 in s.scanned && c in s.added && c in s.callbacks && c.kind == 0
    && (forall v | v in s.begun :: Final(v)) && (forall k | 0 < k < |s.written| :: Final(s.written[k]))
    && (forall k | k in s.scanned :: k < |s.written|)
    && Calls(s, c) == |s.scanned| - 1
  }

  lemma {:induction false} UserCounts(s: State, actions: seq<Action>, t: State, c: Callback)
    requires UserInv(s, c) && UserRun(s, actions) && Leads(s, actions, t)
    ensures UserInv(t, c)
    decreases actions
  {
    if actions != [] {
      UserStep(s, actions[0], c);
      UserCounts(Step(s, actions[0]), actions[1..], t, c);
    }
  }

  lemma UserStep(s: State, a: Action, c: Callback)
    requires UserInv(s, c) && Enabled(s, a) && (a.Call? ==> Final(a.status))
    ensures UserInv(Step(s, a), c)
  {
    hide Hits;
    hide Passed;
    match a
    case Call(v) =>
    case Write(v) => UserWrite(s, v, c);
    case Scan(k) => UserScan(s, k, c);
    case Add(d) => UserAdd(s, d, c);
    case Run(d) => assert Calls(Step(s, a), c) == Calls(s, c);
    case Wait(_) =>
  }

  lemma UserWrite(s: State, v: int, c: Callback)
    requires UserInv(s, c) && Enabled(s, Write(v))
    ensures UserInv(Step(s, Write(v)), c)
  {}

  lemma UserAdd(s: State, d: Callback, c: Callback)
    requires UserInv(s, c) && Enabled(s, Add(d))
    ensures UserInv(Step(s, Add(d)), c)
  {
    hide Passed;
  }

  lemma UserScan(s: State, k: nat, c: Callback)
    requires UserInv(s, c) && Enabled(s, Scan(k))
    ensures UserInv(Step(s, Scan(k)), c)
  {
    var t := Step(s, Scan(k));
    assert c in Hits(s.callbacks, s.written[k]);
    assert |t.scanned| == |s.scanned| + 1;
    assert t.due[c] == s.due[c] + 1;
  }

  /** At some moment two threads are in SetUserEventStatus, past the test and not yet at
      the write. */
  ghost predicate Together(s: State, actions: seq<Action>)
    requires UserRun(s, actions)
    decreases actions
  {
    |s.begun| >= 2 || (actions != [] && Together(Step(s, actions[0]), actions[1..]))
  }

  function Entered(s: State): nat { |s.written| + |s.begun| }

  lemma EnteredGrows(s: State, a: Action)
    requires s.written != [] && Enabled(s, a)
    ensures Entered(Step(s, a)) == Entered(s) + if a.Call? then 1 else 0
  {}

  lemma FirstCall(s: State, a: Action, c: Callback)
    requires UserInv(s, c) && Enabled(s, a) && a.Call? && !Final(Status(s))
    ensures |s.written| == 1
  {
    var k := |s.written| - 1;
    assert s.written[k] == Status(s);
  }

  /** Three values written or on their way exactly if two threads were in there together. */
  lemma {:induction false} TogetherThree(s: State, actions: seq<Action>, t: State, c: Callback)
    requires UserInv(s, c) && UserRun(s, actions) && Leads(s, actions, t)
    ensures Entered(t) >= Entered(s)
    ensures Entered(t) >= 3 <==> Entered(s) >= 3 || Together(s, actions)
    decreases actions
  {
    if actions != [] {
      var u := Step(s, actions[0]);
      UserStep(s, actions[0], c);
      EnteredGrows(s, actions[0]);
      if actions[0].Call? { FirstCall(s, actions[0], c); }
      TogetherThree(u, actions[1..], t, c);
    }
  }

  /** When every thread is through, a completion callback registered on a pending user
      event has been called once for every SetUserEventStatus that got past the test.
      That is more than once exactly if two of them were there together. */
  lemma UserCalls(actions: seq<Action>, t: State, c: Callback)
    requires c.kind == 0
    requires var s := Step(Initial(2), Add(c)); UserRun(s, actions) && Leads(s, actions, t)
    requires Quiescent(t) && t.begun == multiset{}
    ensures t.written != [] && t.ran[c] == |t.written| - 1
    ensures t.ran[c] >= 2 <==> Together(Step(Initial(2), Add(c)), actions)
    ensures t.ran[c] == 0 <==> !Final(Status(t))
  {
    var s := Step(Initial(2), Add(c));
    UserCounts(s, actions, t, c);
    assert Below(|t.written|) == t.scanned;
    TogetherThree(s, actions, t, c);
    WrittenGrows(s, actions, t);
  }

  /** No SetUserEventStatus is entered while another one is there. */
  ghost predicate OneByOne(s: State, actions: seq<Action>)
    requires UserRun(s, actions)
    decreases actions
  {
    actions != [] ==> (actions[0].Call? ==> s.begun == multiset{}) && OneByOne(Step(s, actions[0]), actions[1..])
  }

  lemma {:induction false} NeverTogether(s: State, actions: seq<Action>)
    requires UserRun(s, actions) && OneByOne(s, actions) && |s.begun| <= 1
    ensures !Together(s, actions)
    decreases actions
  {
    if actions != [] { NeverTogether(Step(s, actions[0]), actions[1..]); }
  }

  /** Entered one by one, they call it exactly once, when the first of them completes the
      event. */
  lemma UserOnce(actions: seq<Action>, t: State, c: Callback)
    requires c.kind == 0
    requires var s := Step(Initial(2), Add(c)); UserRun(s, actions) && Leads(s, actions, t) && OneByOne(s, actions)
    requires Quiescent(t) && t.begun == multiset{}
    ensures t.written != [] && t.ran[c] == if Final(Status(t)) then 1 else 0
  {
    UserCalls(actions, t, c);
    NeverTogether(Step(Initial(2), Add(c)), actions);
  }

  lemma {:induction false} NoCalls(s: State, actions: seq<Action>, t: State)
    requires Leads(s, actions, t) && forall a | a in actions :: !a.Call?
    ensures UserRun(s, actions)
    decreases actions
  {
    if actions != [] {
      assert actions[0] in actions;
      NoCalls(Step(s, actions[0]), actions[1..], t);
    }
  }

  /** The threads past the test write. */
  lemma {:induction false} Writes(s: State) returns (actions: seq<Action>, t: State)
    requires s.written != []
    ensures Leads(s, actions, t) && t.begun == multiset{} && Entered(t) == Entered(s) && t.written != []
    ensures forall a | a in actions :: !a.Call?
    decreases |s.begun|
  {
    if v :| v in s.begun {
      EnteredGrows(s, Write(v));
      var rest;
      rest, t := Writes(Step(s, Write(v)));
      actions := [Write(v)] + rest;
    } else {
      assert forall v :: s.begun[v] == 0;
      actions, t := [], s;
    }
  }

  /** Wherever a run has got to with two of them there together, it can only end with two
      calls or more, and it can end. */
  lemma TogetherTwice(actions: seq<Action>, s: State, c: Callback) returns (more: seq<Action>, t: State)
    requires c.kind == 0 && |s.begun| >= 2
    requires var i := Step(Initial(2), Add(c)); UserRun(i, actions) && Leads(i, actions, s)
    ensures UserRun(s, more) && Leads(s, more, t) && Quiescent(t) && t.begun == multiset{} && t.ran[c] >= 2
  {
    var i := Step(Initial(2), Add(c));
    UserCounts(i, actions, s, c);
    var writes, u := Writes(s);
    var rest;
    rest, t := Settles(u);
    LeadsOn(s, writes, u, rest, t);
    more := writes + rest;
    NoCalls(s, more, t);
    UserCounts(s, more, t, c);
    assert Below(|t.written|) == t.scanned;
  }

  function Below(n: nat): (r: set<nat>)
    ensures |r| == n && forall k: nat :: k in r <==> k < n
  {
    if n == 0 then {} else Below(n - 1) + {n - 1}
  }

  /** The event once both of two threads have got past the test and one has finished. */
  function Raced(c: Callback): State {
    State([2, 0], multiset{-1}, {0, 1}, {c}, map[c := 1], multiset{c}, multiset{}, {}, {})
  }

  /** A pending user event with one callback. */
  function Armed(c: Callback): State {
    State([2], multiset{}, {0}, {c}, map[c := 1], multiset{}, multiset{}, {}, {})
  }

  lemma ArmedIs(c: Callback)
    requires c.kind < 2
    ensures Step(Initial(2), Add(c)) == Armed(c)
  {}

  function RaceEnd(c: Callback): State {
    State([2, 0, -1], multiset{}, {0, 1, 2}, {c}, map[c := 1], multiset{}, multiset{c, c}, {}, {})
  }

  lemma RaceStarts(c: Callback)
    requires c.kind == 0
    ensures Leads(Armed(c), [Call(0), Call(-1), Write(0), Scan(1)], Raced(c)) && UserRun(Armed(c), [Call(0), Call(-1), Write(0), Scan(1)])
  {
    hide Leads;
    hide UserRun;
    hide Step;
    hide Enabled;
    var s := Armed(c);
    var s1 := s.(begun := multiset{0});
    var s2 := s.(begun := multiset{0, -1});
    var s3 := s.(written := [2, 0], begun := multiset{-1});
    RaceCalls(c, s1, s2, s3);
    RaceScan(c, s3);
    Four(s, [Call(0), Call(-1), Write(0), Scan(1)], s1, s2, s3, Raced(c));
  }

  lemma RaceCalls(c: Callback, s1: State, s2: State, s3: State)
    requires var s := Armed(c);
             s1 == s.(begun := multiset{0}) && s2 == s.(begun := multiset{0, -1}) && s3 == s.(written := [2, 0], begun := multiset{-1})
    ensures Enabled(Armed(c), Call(0)) && Step(Armed(c), Call(0)) == s1 && Enabled(s1, Call(-1)) && Step(s1, Call(-1)) == s2
    ensures Enabled(s2, Write(0)) && Step(s2, Write(0)) == s3
  {
    hide Hits;
    hide Passed;
  }

  lemma RaceScan(c: Callback, s: State)
    requires c.kind == 0 && s == Armed(c).(written := [2, 0], begun := multiset{-1})
    ensures Enabled(s, Scan(1)) && Step(s, Scan(1)) == Raced(c)
  {
    assert Hits({c}, 0) == {c};
  }

  lemma RaceEnds(c: Callback)
    requires c.kind == 0
    ensures Leads(Raced(c), [Run(c), Write(-1), Scan(2), Run(c)], RaceEnd(c)) && UserRun(Raced(c), [Run(c), Write(-1), Scan(2), Run(c)])
  {
    hide Leads;
    hide UserRun;
    var s1 := Raced(c).(due := multiset{}, ran := multiset{c});
    var s2 := s1.(written := [2, 0, -1], begun := multiset{});
    var s3 := s2.(scanned := {0, 1, 2}, due := multiset{c});
    assert Step(Raced(c), Run(c)) == s1;
    assert Step(s1, Write(-1)) == s2;
    assert Hits({c}, -1) == {c};
    assert Step(s2, Scan(2)) == s3;
    assert Step(s3, Run(c)) == RaceEnd(c);
    hide Step;
    Four(Raced(c), [Run(c), Write(-1), Scan(2), Run(c)], s1, s2, s3, RaceEnd(c));
  }

  lemma EndIs(c: Callback)
    ensures Quiescent(RaceEnd(c)) && RaceEnd(c).ran[c] == 2 && RaceEnd(c).begun == multiset{}
  {}

  /** Two threads can both get past it. */
  lemma RaceRunsTwice(c: Callback) returns (actions: seq<Action>, t: State)
    requires c.kind == 0
    ensures var s := Step(Initial(2), Add(c)); UserRun(s, actions) && Leads(s, actions, t) && Quiescent(t) && t.begun == multiset{} && t.ran[c] == 2
  {
    ArmedIs(c);
    RaceStarts(c);
    RaceEnds(c);
    EndIs(c);
    var s, a, b := Armed(c), [Call(0), Call(-1), Write(0), Scan(1)], [Run(c), Write(-1), Scan(2), Run(c)];
    hide Step;
    hide Leads;
    hide UserRun;
    hide Armed;
    hide Raced;
    hide RaceEnd;
    hide Quiescent;
    LeadsOn(s, a, Raced(c), b, RaceEnd(c));
    UserOn(s, a, Raced(c), b);
    actions, t := a + b, RaceEnd(c);
  }

  lemma Four(s: State, a: seq<Action>, s1: State, s2: State, s3: State, t: State)
    requires |a| == 4 && Enabled(s, a[0]) && s1 == Step(s, a[0]) && Enabled(s1, a[1]) && s2 == Step(s1, a[1])
    requires Enabled(s2, a[2]) && s3 == Step(s2, a[2]) && Enabled(s3, a[3]) && t == Step(s3, a[3])
    requires !a[2].Call? && !a[3].Call?
    requires a[0].Call? ==> Final(a[0].status) && !Final(Status(s))
    requires a[1].Call? ==> Final(a[1].status) && !Final(Status(s1))
    ensures Leads(s, a, t) && UserRun(s, a)
  {
    hide Step;
    hide Enabled;
    assert a[3..][1..] == [] && a[2..][1..] == a[3..] && a[1..][1..] == a[2..];
    assert Leads(t, a[3..][1..], t) && UserRun(t, a[3..][1..]);
    assert Leads(s3, a[3..], t) && UserRun(s3, a[3..]);
    assert Leads(s2, a[2..], t) && UserRun(s2, a[2..]);
    assert Leads(s1, a[1..], t) && UserRun(s1, a[1..]);
  }

  lemma {:induction false} LeadsOn(s: State, a: seq<Action>, t: State, b: seq<Action>, u: State)
    requires Leads(s, a, t) && Leads(t, b, u)
    ensures Leads(s, a + b, u)
    decreases a
  {
    if a == [] {
      assert a + b == b;
    } else {
      assert (a + b)[1..] == a[1..] + b;
      LeadsOn(Step(s, a[0]), a[1..], t, b, u);
    }
  }

  lemma {:induction false} UserOn(s: State, a: seq<Action>, t: State, b: seq<Action>)
    requires Leads(s, a, t) && UserRun(s, a) && UserRun(t, b)
    ensures UserRun(s, a + b)
    decreases a
  {
    if a == [] {
      assert a + b == b;
    } else {
      assert (a + b)[1..] == a[1..] + b;
      UserOn(Step(s, a[0]), a[1..], t, b);
    }
  }

  /** The callbacks that status asks for, in the order of the list. */
  function Targets(callbacks: seq<Callback>, status: int): (r: seq<Callback>) {
    if callbacks == [] then []
    else
      var n := |callbacks| - 1;
      Targets(callbacks[..n], status) + if Hit(callbacks[n], status) then [callbacks[n]] else []
  }

  function AsksFor(status: int): Callback -> bool { (c: Callback) => c.kind == if status < 0 then 0 else status }

  /** Those are exactly the callbacks of that kind, in order. */
  lemma {:induction false} TargetsKept(callbacks: seq<Callback>, status: int)
    ensures Kept(callbacks, AsksFor(status), Targets(callbacks, status))
  {
    hide Kept;
    if callbacks == [] {
      KeptNone(AsksFor(status));
    } else {
      var n := |callbacks| - 1;
      TargetsKept(callbacks[..n], status);
      assert callbacks == callbacks[..n] + [callbacks[n]];
      KeptMore(callbacks[..n], AsksFor(status), Targets(callbacks[..n], status), callbacks[n]);
    }
  }

  function Members(l: seq<Callback>): set<Callback> { set c | c in l }

  ghost predicate Distinct(l: seq<Callback>) { forall i, j :: 0 <= i < j < |l| ==> l[i] != l[j] }

  lemma {:induction false} TargetsOnce(l: seq<Callback>, status: int, c: Callback)
    requires Distinct(l)
    ensures multiset(Targets(l, status))[c] == if c in l && Hit(c, status) then 1 else 0
  {
    if l != [] {
      var n := |l| - 1;
      assert l == l[..n] + [l[n]];
      TargetsOnce(l[..n], status, c);
      assert l[n] !in l[..n];
    }
  }

  lemma TargetsAreHits(l: seq<Callback>, status: int)
    requires Distinct(l)
    ensures multiset(Targets(l, status)) == multiset(Hits(Members(l), status))
  {
    forall c ensures multiset(Targets(l, status))[c] == multiset(Hits(Members(l), status))[c] {
      TargetsOnce(l, status, c);
    }
  }

  /** Calling the callbacks of a list that are due. */
  lemma {:induction false} RunAll(s: State, l: seq<Callback>) returns (actions: seq<Action>, t: State)
    requires s.written != [] && s.due == multiset(l)
    ensures Leads(s, actions, t) && t == s.(due := multiset{}, ran := s.ran + multiset(l))
    decreases |l|
  {
    if l == [] {
      actions, t := [], s;
    } else {
      assert l == [l[0]] + l[1..];
      var u := Step(s, Run(l[0]));
      var rest;
      rest, t := RunAll(u, l[1..]);
      actions := [Run(l[0])] + rest;
    }
  }

  /** What SetStatus does when nothing interferes. */
  lemma SetRun(s: State, l: seq<Callback>, status: int) returns (actions: seq<Action>, t: State)
    requires s.written != [] && Quiescent(s) && Distinct(l) && s.callbacks == Members(l) && forall k | k in s.scanned :: k < |s.written|
    ensures Leads(s, actions, t) && Quiescent(t) && t.written == s.written + [status] && t.added == s.added
    ensures t.callbacks == s.callbacks && t.ran == s.ran + multiset(Targets(l, status)) && t.scanned == s.scanned + {|s.written|}
  {
    hide Step;
    hide Enabled;
    var first, u := SetLooks(s, l, status);
    var runs;
    runs, t := RunAll(u, Targets(l, status));
    LeadsOn(s, first, u, runs, t);
    actions := first + runs;
  }

  lemma SetLooks(s: State, l: seq<Callback>, status: int) returns (actions: seq<Action>, t: State)
    requires s.written != [] && s.due == multiset{} && Distinct(l) && s.callbacks == Members(l) && forall k | k in s.scanned :: k < |s.written|
    ensures Leads(s, actions, t) && t.written == s.written + [status] && t.added == s.added && t.callbacks == s.callbacks && t.ran == s.ran
    ensures t.due == multiset(Targets(l, status)) && t.scanned == s.scanned + {|s.written|}
  {
    hide Leads;
    var s1 := Step(s, Call(status));
    var s2 := Step(s1, Write(status));
    var k := |s.written|;
    assert s2.written[k] == status;
    t := Step(s2, Scan(k));
    TargetsAreHits(l, status);
    Three(s, Call(status), s1, Write(status), s2, Scan(k), t);
    actions := [Call(status), Write(status), Scan(k)];
  }

  lemma AddRun(s: State, c: Callback) returns (actions: seq<Action>, t: State)
    requires s.written != [] && s.due == multiset{} && c !in s.added
    ensures Leads(s, actions, t)
    ensures t == if Passed(c, Status(s)) then s.(added := s.added[c := |s.written|], ran := s.ran + multiset{c})
                 else s.(added := s.added[c := |s.written|], callbacks := s.callbacks + {c})
  {
    var s1 := Step(s, Add(c));
    if Passed(c, Status(s)) {
      t := Step(s1, Run(c));
      assert [Add(c), Run(c)][1..] == [Run(c)] && [Run(c)][1..] == [];
      assert Leads(s1, [Run(c)], t);
      actions := [Add(c), Run(c)];
    } else {
      actions, t := [Add(c)], s1;
      assert [Add(c)][1..] == [];
    }
  }

  /** The fields of an event are those of a state that its history leads to, with every
      thread through. */
  ghost predicate Models(start: int, trace: seq<Action>, s: State, status: int, callbacks: seq<Callback>, calls: seq<Callback>) {
    && Leads(Initial(start), trace, s) && Quiescent(s)
    && s.written != [] && status == Status(s)
    && Distinct(callbacks) && s.callbacks == Members(callbacks)
    && (forall c | c in callbacks :: c in s.added)
    && (forall k | k in s.scanned :: k < |s.written|)
    && s.ran == multiset(calls)
  }

  lemma SetModels(start: int, trace: seq<Action>, s: State, was: int, callbacks: seq<Callback>, calls: seq<Callback>, status: int)
      returns (more: seq<Action>, t: State)
    requires Models(start, trace, s, was, callbacks, calls)
    ensures Models(start, trace + more, t, status, callbacks, calls + Targets(callbacks, status))
    ensures t.written == s.written + [status] && t.added == s.added
  {
    hide Step;
    hide Enabled;
    more, t := SetRun(s, callbacks, status);
    LeadsOn(Initial(start), trace, s, more, t);
  }

  lemma AddModels(start: int, trace: seq<Action>, s: State, status: int, callbacks: seq<Callback>, calls: seq<Callback>, c: Callback)
      returns (more: seq<Action>, t: State)
    requires Models(start, trace, s, status, callbacks, calls) && c !in s.added
    ensures t.written == s.written && t.added == s.added[c := |t.written|]
    ensures if Passed(c, status) then Models(start, trace + more, t, status, callbacks, calls + [c])
            else Models(start, trace + more, t, status, callbacks + [c], calls)
  {
    hide Step;
    hide Enabled;
    hide Passed;
    more, t := AddRun(s, c);
    LeadsOn(Initial(start), trace, s, more, t);
  }

  /** CLEvent, when its methods do not overlap: one of the interleavings above. calls are
      the callbacks made, in order. */
  class Event {
    const user: bool
    var status: int
    var callbacks: seq<Callback>
    var calls: seq<Callback>
    ghost var start: int
    ghost var trace: seq<Action>
    ghost var model: State

    ghost predicate Valid()
      reads this
    {
      Models(start, trace, model, status, callbacks, calls)
    }

    constructor (status: int, user: bool)
      ensures Valid() && this.user == user && this.status == status && callbacks == [] && calls == []
      ensures model == Initial(status) && start == status
    {
      this.user, this.status, callbacks, calls, start, trace, model := user, status, [], [], status, [], Initial(status);
    }

    method SetStatus(status: int)
      requires Valid()
      modifies this
      ensures Valid() && start == old(start)
      ensures this.status == status && callbacks == old(callbacks)
      ensures calls == old(calls) + Targets(old(callbacks), status)
      ensures model.written == old(model.written) + [status] && model.added == old(model.added)
    {
      hide Models;
      ghost var s, was := model, this.status;
      this.status := status;
      var targets: seq<Callback> := [];
      for i := 0 to |callbacks|
        invariant targets == Targets(callbacks[..i], status)
      {
        assert callbacks[..i + 1][..i] == callbacks[..i];
        if Hit(callbacks[i], status) { targets := targets + [callbacks[i]]; }
      }
      assert callbacks[..|callbacks|] == callbacks;
      for i := 0 to |targets|
        modifies this`calls
        invariant calls == old(calls) + targets[..i]
      {
        calls := calls + [targets[i]];
      }
      assert targets[..|targets|] == targets;
      ghost var more, t := SetModels(start, trace, s, was, callbacks, old(calls), status);
      trace, model := trace + more, t;
    }

    /** A call refused changes nothing. */
    method SetUserEventStatus(status: int) returns (error: int)
      requires Valid()
      modifies this
      ensures Valid() && start == old(start)
      ensures error == if !user then INVALID_EVENT else if old(this.status) <= 0 then INVALID_OPERATION else SUCCESS
      ensures error == SUCCESS ==> this.status == status && calls == old(calls) + Targets(old(callbacks), status)
      ensures error == SUCCESS ==> model.written == old(model.written) + [status] && model.added == old(model.added)
      ensures error != SUCCESS ==> model == old(model) && calls == old(calls)
      ensures callbacks == old(callbacks)
    {
      if !user { return INVALID_EVENT; }
      if this.status == 0 || this.status < 0 { return INVALID_OPERATION; }
      SetStatus(status);
      error := SUCCESS;
    }

    method AddCallback(c: Callback)
      requires Valid() && c !in model.added
      modifies this
      ensures Valid() && start == old(start) && status == old(status)
      ensures callbacks == old(callbacks) + if status <= c.kind then [] else [c]
      ensures calls == old(calls) + if status <= c.kind then [c] else []
      ensures model.written == old(model.written) && model.added == old(model.added)[c := |model.written|]
    {
      hide Models;
      ghost var s := model;
      var passed := Passed(c, status);
      if !passed {
        callbacks := callbacks + [c];
      } else {
        calls := calls + [c];
      }
      ghost var more, t := AddModels(start, trace, s, status, old(callbacks), old(calls), c);
      trace, model := trace + more, t;
    }
  }

  lemma Three(s: State, a: Action, s1: State, b: Action, s2: State, c: Action, t: State)
    requires Enabled(s, a) && s1 == Step(s, a) && Enabled(s1, b) && s2 == Step(s1, b) && Enabled(s2, c) && t == Step(s2, c)
    ensures Leads(s, [a, b, c], t)
  {
    assert [a, b, c][1..] == [b, c] && [b, c][1..] == [c] && [c][1..] == [];
    assert Leads(t, [], t);
    assert Leads(s2, [c], t);
    assert Leads(s1, [b, c], t);
  }
}
