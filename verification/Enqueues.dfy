/** Two threads in CLInOrderCommandQueue::Enqueue, which takes no lock: when the chain of
    wait events is still that of the queue. */
module Enqueues {
  import opened Wrappers

  /** A thread in Enqueue has read last_event_ for its command, or has replaced it. */
  datatype Place = Looked | Marked

  /** last is last_event_; waits says for which command each one was made to wait. */
  datatype State = State(last: Option<nat>, inside: map<nat, Place>, list: seq<nat>, waits: map<nat, Option<nat>>)

  const EMPTY := State(None, map[], [], map[])

  datatype Action = Look(c: nat) | Mark(c: nat) | Push(c: nat)

  predicate Enabled(s: State, a: Action) {
    match a
    case Look(c) => c !in s.waits
    case Mark(c) => c in s.inside && s.inside[c].Looked?
    case Push(c) => c in s.inside && s.inside[c].Marked?
  }

  function Step(s: State, a: Action): State
    requires Enabled(s, a)
  {
    match a
    case Look(c) => s.(waits := s.waits[c := s.last], inside := s.inside[c := Looked])
    case Mark(c) => s.(last := Some(c), inside := s.inside[c := Marked])
    case Push(c) => s.(list := s.list + [c], inside := s.inside - {c})
  }

  predicate Leads(s: State, actions: seq<Action>, t: State)
    decreases actions
  {
    if actions == [] then s == t else Enabled(s, actions[0]) && Leads(Step(s, actions[0]), actions[1..], t)
  }

  function Before(list: seq<nat>, k: nat): Option<nat>
    requires k <= |list|
  {
    if k == 0 then None else Some(list[k - 1])
  }

  /** Every command waits for the one in front of it. */
  ghost predicate Chained(s: State) {
    forall k: nat | k < |s.list| :: s.list[k] in s.waits && s.waits[s.list[k]] == Before(s.list, k)
  }

  /** A command is entered only when no other is in Enqueue. */
  ghost predicate OneByOne(s: State, actions: seq<Action>)
    decreases actions
  {
    actions != [] ==> Enabled(s, actions[0]) && (actions[0].Look? ==> s.inside == map[]) && OneByOne(Step(s, actions[0]), actions[1..])
  }

  /** Command c alone is in Enqueue, and will be chained to the last of the list. */
  ghost predicate Alone(s: State, c: nat, p: Place) {
    && s.inside == map[c := p] && c in s.waits && c !in s.list && s.waits[c] == Before(s.list, |s.list|)
    && s.last == if p.Looked? then Before(s.list, |s.list|) else Some(c)
  }

  ghost predicate Tidy(s: State) {
    Chained(s) && if s.inside == map[] then s.last == Before(s.list, |s.list|) else exists c, p :: Alone(s, c, p)
  }

  lemma LookTidy(s: State, c: nat)
    requires Tidy(s) && Enabled(s, Look(c)) && s.inside == map[]
    ensures Tidy(Step(s, Look(c)))
  {
    var t := Step(s, Look(c));
    forall k: nat | k < |s.list| ensures s.list[k] != c { assert s.list[k] in s.waits; }
    assert Alone(t, c, Looked);
  }

  lemma MarkTidy(s: State, c: nat)
    requires Tidy(s) && Enabled(s, Mark(c))
    ensures Tidy(Step(s, Mark(c)))
  {
    var e, p :| Alone(s, e, p);
    assert e == c && p == Looked;
    assert Step(s, Mark(c)).inside == map[c := Marked];
    assert Alone(Step(s, Mark(c)), c, Marked);
  }

  lemma ChainOne(s: State, t: State, c: nat)
    requires Chained(s) && t.list == s.list + [c] && t.waits == s.waits && c in s.waits && s.waits[c] == Before(s.list, |s.list|)
    ensures Chained(t)
  {
    forall k: nat | k < |t.list| ensures t.list[k] in t.waits && t.waits[t.list[k]] == Before(t.list, k) {
      if k < |s.list| { assert t.list[k] == s.list[k] && Before(t.list, k) == Before(s.list, k); }
    }
  }

  lemma IsTidy(s: State)
    requires Chained(s) && s.inside == map[] && s.last == Before(s.list, |s.list|)
    ensures Tidy(s)
  {
    hide Chained;
  }

  lemma PushTidy(s: State, c: nat)
    requires Tidy(s) && Enabled(s, Push(c))
    ensures Tidy(Step(s, Push(c)))
  {
    var e, p :| Alone(s, e, p);
    assert e == c && p == Marked;
    var t := Step(s, Push(c));
    assert t.inside == map[];
    hide Tidy;
    ChainOne(s, t, c);
    IsTidy(t);
  }

  lemma StepTidy(s: State, a: Action)
    requires Tidy(s) && Enabled(s, a) && (a.Look? ==> s.inside == map[])
    ensures Tidy(Step(s, a))
  {
    hide Tidy;
    match a
    case Look(c) => LookTidy(s, c);
    case Mark(c) => MarkTidy(s, c);
    case Push(c) => PushTidy(s, c);
  }

  lemma {:induction false} RunTidy(s: State, actions: seq<Action>, t: State)
    requires Tidy(s) && Leads(s, actions, t) && OneByOne(s, actions)
    ensures Tidy(t)
    decreases actions
  {
    if actions != [] {
      StepTidy(s, actions[0]);
      RunTidy(Step(s, actions[0]), actions[1..], t);
    }
  }

  /** Entered one by one, the commands are chained in the order of the queue. */
  lemma SerialChained(actions: seq<Action>, t: State)
    requires Leads(EMPTY, actions, t) && OneByOne(EMPTY, actions)
    ensures Chained(t) && (t.inside == map[] ==> t.last == Before(t.list, |t.list|))
  {
    RunTidy(EMPTY, actions, t);
  }

  lemma Before1(s: State, a: Action, actions: seq<Action>, t: State)
    requires Enabled(s, a) && Leads(Step(s, a), actions, t)
    ensures Leads(s, [a] + actions, t)
  {
    assert ([a] + actions)[1..] == actions;
  }

  lemma AloneIs(s: State, c: nat)
    requires Tidy(s) && c in s.inside
    ensures Alone(s, c, s.inside[c]) && s.inside.Keys == {c}
  {
    var e, p :| Alone(s, e, p);
  }

  /** Another command is entered while c has only read last_event_: both wait for the
      same one. */
  lemma TwoForOne(s: State, c: nat, d: nat) returns (actions: seq<Action>, t: State)
    requires Tidy(s) && c in s.inside && s.inside[c].Looked? && d !in s.waits
    ensures Leads(s, [Look(d)] + actions, t) && t.inside == map[] && t.list == s.list + [c, d]
    ensures forall a | a in actions :: !a.Look?
    ensures c in t.waits && d in t.waits && t.waits[d] == t.waits[c] == Before(s.list, |s.list|)
  {
    AloneIs(s, c);
    var s1 := Step(s, Look(d));
    var s2 := Step(s1, Mark(c));
    var s3 := Step(s2, Push(c));
    var s4 := Step(s3, Mark(d));
    t := Step(s4, Push(d));
    assert t.inside.Keys == {};
    hide Step;
    hide Tidy;
    assert Leads(t, [], t);
    Before1(s4, Push(d), [], t);
    Before1(s3, Mark(d), [Push(d)] + [], t);
    Before1(s2, Push(c), [Mark(d)] + ([Push(d)] + []), t);
    Before1(s1, Mark(c), [Push(c)] + ([Mark(d)] + ([Push(d)] + [])), t);
    actions := [Mark(c)] + ([Push(c)] + ([Mark(d)] + ([Push(d)] + [])));
    Before1(s, Look(d), actions, t);
  }

  /** It is entered when c has replaced last_event_: the one in front can come to wait
      for the one behind it, and neither is ever executable. */
  lemma Backwards(s: State, c: nat, d: nat) returns (actions: seq<Action>, t: State)
    requires Tidy(s) && c in s.inside && s.inside[c].Marked? && d !in s.waits
    ensures Leads(s, [Look(d)] + actions, t) && t.inside == map[] && t.list == s.list + [d, c]
    ensures forall a | a in actions :: !a.Look?
    ensures d in t.waits && t.waits[d] == Some(c)
  {
    AloneIs(s, c);
    var s1 := Step(s, Look(d));
    var s2 := Step(s1, Mark(d));
    var s3 := Step(s2, Push(d));
    t := Step(s3, Push(c));
    assert t.inside.Keys == {};
    hide Step;
    hide Tidy;
    assert Leads(t, [], t);
    Before1(s3, Push(c), [], t);
    Before1(s2, Push(d), [Push(c)] + [], t);
    Before1(s1, Mark(d), [Push(d)] + ([Push(c)] + []), t);
    actions := [Mark(d)] + ([Push(d)] + ([Push(c)] + []));
    Before1(s, Look(d), actions, t);
  }

  lemma {:induction false} NoLooks(s: State, actions: seq<Action>, t: State)
    requires Leads(s, actions, t) && forall a | a in actions :: !a.Look?
    ensures OneByOne(s, actions)
    decreases actions
  {
    if actions != [] {
      assert actions[0] in actions;
      NoLooks(Step(s, actions[0]), actions[1..], t);
    }
  }

  lemma Broken(s: State, c: nat, d: nat) returns (actions: seq<Action>, t: State)
    requires Tidy(s) && c in s.inside && d !in s.waits
    ensures Leads(s, [Look(d)] + actions, t) && OneByOne(Step(s, Look(d)), actions) && !Chained(t)
  {
    AloneIs(s, c);
    var n := |s.list|;
    if s.inside[c].Looked? {
      actions, t := TwoForOne(s, c, d);
      assert t.list[n] == c && t.list[n + 1] == d;
    } else {
      actions, t := Backwards(s, c, d);
      assert t.list[n] == d && t.list[n + 1] == c;
    }
    hide Chained;
    hide Tidy;
    hide Step;
    assert ([Look(d)] + actions)[1..] == actions;
    NoLooks(Step(s, Look(d)), actions, t);
  }

  lemma Safe(s: State, d: nat, actions: seq<Action>, t: State)
    requires Tidy(s) && s.inside == map[] && d !in s.waits
    requires Leads(s, [Look(d)] + actions, t) && OneByOne(Step(s, Look(d)), actions)
    ensures Chained(t)
  {
    assert ([Look(d)] + actions)[1..] == actions;
    StepTidy(s, Look(d));
    RunTidy(Step(s, Look(d)), actions, t);
  }

  /** So entering a command is safe, however the run goes on with those in Enqueue, if
      and only if no other is there. */
  lemma EnterSafely(s: State, d: nat)
    requires Tidy(s) && d !in s.waits
    ensures (forall actions, t | Leads(s, [Look(d)] + actions, t) && OneByOne(Step(s, Look(d)), actions) :: Chained(t)) <==> s.inside == map[]
  {
    hide Chained;
    hide Tidy;
    hide Step;
    hide Leads;
    if s.inside == map[] {
      forall actions, t | Leads(s, [Look(d)] + actions, t) && OneByOne(Step(s, Look(d)), actions) ensures Chained(t) {
        Safe(s, d, actions, t);
      }
    } else {
      var c :| c in s.inside;
      var actions, t := Broken(s, c, d);
    }
  }
}
