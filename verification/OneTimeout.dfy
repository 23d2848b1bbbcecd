/** A simpler machine that the handler queue is equivalent to: every operation has one timeout,
  * and there are no wake-ups that find nothing to do. */
module OneTimeout {
  import opened EventLoop

  datatype Spec = Spec(now: int, deadline: Expiry, open: bool, op: Operation, ec: Code)

  datatype Event =
    | Elapse(d: nat)
    | Step
    | Complete(result: Result)
    | Handle
    | Call(kind: Kind, steps: nat, opens: bool)
    | GiveUp
    | Timeout

  predicate Can(s: Spec, e: Event) {
    match e
    case Elapse(_) => true
    case Step => s.op.InFlight? && s.op.steps > 0
    case Complete(_) => s.op.InFlight?
    case Handle => s.ec == WouldBlock && (s.op.StepReady? || s.op.DoneReady?)
    case Call(_, _, _) => s.ec != WouldBlock
    case GiveUp => s.ec != WouldBlock
    case Timeout => s.ec == WouldBlock && s.deadline.At? && s.deadline.time <= s.now
  }

  function Do(timeout: nat, s: Spec, e: Event): Spec
    requires Can(s, e)
  {
    match e
    case Elapse(d) => s.(now := s.now + d)
    case Step => s.(op := StepReady(s.op.steps - 1))
    case Complete(r) => s.(op := DoneReady(r))
    case Handle =>
      if s.op.DoneReady? then s.(op := Idle, ec := if s.op.result == Ok then Success else Failed)
      else if s.open then s.(op := InFlight(s.op.steps))
      else s.(op := DoneReady(Err))
    case Call(kind, steps, opens) =>
      var open := if kind == Connecting then opens else s.open;
      Spec(s.now, At(s.now + timeout), open, if open then InFlight(steps) else DoneReady(Err), WouldBlock)
    case GiveUp => s.(deadline := At(s.now + timeout))
    case Timeout => s.(deadline := Never, open := false, op := if s.op.InFlight? then DoneReady(Err) else s.op)
  }

  predicate ValidEvents(timeout: nat, s: Spec, es: seq<Event>)
    decreases |es|
  {
    es == [] || (Can(s, es[0]) && ValidEvents(timeout, Do(timeout, s, es[0]), es[1..]))
  }

  function After(timeout: nat, s: Spec, es: seq<Event>): Spec
    requires ValidEvents(timeout, s, es)
    decreases |es|
  {
    if es == [] then s else After(timeout, Do(timeout, s, es[0]), es[1..])
  }

  /** Forgets the timer's wait. */
  function Abs(s: State): Spec {
    Spec(s.now, s.expiry, s.open, s.op, s.ec)
  }

  /** What an action of the handler queue is in the simple machine: a deadline handler is the
    * timeout if it finds the expiry passed, and nothing at all otherwise. */
  function EraseOne(s: State, a: Action): seq<Event> {
    match a
    case Tick(d) => [Elapse(d)]
    case Fire => []
    case Progress => [Step]
    case Finish(r) => [Complete(r)]
    case Peer(_) => []
    case RunWait => if s.Expired() then [Timeout] else []
    case RunOperation => [Handle]
    case Begin(kind, steps, opens) => [Call(kind, steps, opens)]
    case RenewOnly => [GiveUp]
    case Deliver => []
  }

  function Erase(timeout: nat, s: State, run: seq<Action>): seq<Event>
    requires ValidRun(timeout, s, run)
    decreases |run|
  {
    if run == [] then [] else EraseOne(s, run[0]) + Erase(timeout, Apply(timeout, s, run[0]), run[1..])
  }

  lemma EraseStep(timeout: nat, s: State, a: Action)
    requires Inv(s) && Enabled(s, a)
    ensures ValidEvents(timeout, Abs(s), EraseOne(s, a))
    ensures After(timeout, Abs(s), EraseOne(s, a)) == Abs(Apply(timeout, s, a))
  {
    var es := EraseOne(s, a);
    if es != [] {
      assert es[1..] == [];
      assert Do(timeout, Abs(s), es[0]) == Abs(Apply(timeout, s, a));
    }
  }

  lemma {:induction false} EventsSplit(timeout: nat, s: Spec, a: seq<Event>, b: seq<Event>)
    requires ValidEvents(timeout, s, a) && ValidEvents(timeout, After(timeout, s, a), b)
    ensures ValidEvents(timeout, s, a + b)
    ensures After(timeout, s, a + b) == After(timeout, After(timeout, s, a), b)
    decreases |a|
  {
    if a == [] {
      assert a + b == b;
    } else {
      assert (a + b)[1..] == a[1..] + b;
      EventsSplit(timeout, Do(timeout, s, a[0]), a[1..], b);
    }
  }

  /** Main result, one way: every run of the handler queue, stale and cancelled wake-ups and all,
    * is a run of the simple machine that ends in the same clock, deadline, socket, operation and
    * completion code, hence in the same verdict. */
  lemma {:induction false} Simulates(timeout: nat, s: State, run: seq<Action>)
    requires Inv(s) && ValidRun(timeout, s, run)
    ensures ValidEvents(timeout, Abs(s), Erase(timeout, s, run))
    ensures After(timeout, Abs(s), Erase(timeout, s, run)) == Abs(Exec(timeout, s, run))
    decreases |run|
  {
    if run != [] {
      var t := Apply(timeout, s, run[0]);
      InvStep(timeout, s, run[0]);
      EraseStep(timeout, s, run[0]);
      Simulates(timeout, t, run[1..]);
      EventsSplit(timeout, Abs(s), EraseOne(s, run[0]), Erase(timeout, t, run[1..]));
    }
  }

  /** How the handler queue takes a step of the simple machine. */
  function RealizeOne(s: State, e: Event): seq<Action> {
    match e
    case Elapse(d) => [Tick(d)]
    case Step => [Progress]
    case Complete(r) => [Finish(r)]
    case Handle => [RunOperation]
    case Call(kind, steps, opens) => [Begin(kind, steps, opens)]
    case GiveUp => [RenewOnly]
    case Timeout => if s.armed > 0 then [Fire, RunWait] else [RunWait]
  }

  lemma RealizeStep(timeout: nat, s: State, e: Event)
    requires Inv(s) && Can(Abs(s), e)
    ensures ValidRun(timeout, s, RealizeOne(s, e))
    ensures Abs(Exec(timeout, s, RealizeOne(s, e))) == Do(timeout, Abs(s), e)
    ensures Erase(timeout, s, RealizeOne(s, e)) == [e]
  {
    var run := RealizeOne(s, e);
    if |run| == 2 {
      var t := Apply(timeout, s, Fire);
      assert run[1..] == [RunWait] && [RunWait][1..] == [];
      assert Enabled(t, RunWait);
      assert ValidRun(timeout, t, [RunWait]);
      assert Exec(timeout, t, [RunWait]) == Apply(timeout, t, RunWait);
      assert Erase(timeout, t, [RunWait]) == [Timeout] + Erase(timeout, Apply(timeout, t, RunWait), []);
    } else {
      assert run[1..] == [];
      assert Erase(timeout, s, run) == EraseOne(s, run[0]) + Erase(timeout, Apply(timeout, s, run[0]), []);
    }
  }

  lemma {:induction false} EraseSplit(timeout: nat, s: State, a: seq<Action>, b: seq<Action>)
    requires ValidRun(timeout, s, a) && ValidRun(timeout, Exec(timeout, s, a), b)
    ensures ValidRun(timeout, s, a + b)
    ensures Erase(timeout, s, a + b) == Erase(timeout, s, a) + Erase(timeout, Exec(timeout, s, a), b)
    decreases |a|
  {
    RunSplit(timeout, s, a, b);
    if a == [] {
      assert a + b == b;
    } else {
      assert (a + b)[1..] == a[1..] + b;
      EraseSplit(timeout, Apply(timeout, s, a[0]), a[1..], b);
    }
  }

  lemma {:induction false} Realize(timeout: nat, s: State, es: seq<Event>) returns (run: seq<Action>)
    requires Inv(s) && ValidEvents(timeout, Abs(s), es)
    ensures ValidRun(timeout, s, run) && Erase(timeout, s, run) == es
    ensures Abs(Exec(timeout, s, run)) == After(timeout, Abs(s), es)
    decreases |es|
  {
    if es == [] {
      run := [];
    } else {
      var first := RealizeOne(s, es[0]);
      RealizeStep(timeout, s, es[0]);
      InvRun(timeout, s, first);
      var t := Exec(timeout, s, first);
      var rest := Realize(timeout, t, es[1..]);
      run := first + rest;
      RunSplit(timeout, s, first, rest);
      EraseSplit(timeout, s, first, rest);
      assert es == [es[0]] + es[1..];
    }
  }

  /** Main result, the other way: every run of the simple machine is one of the handler queue. */
  lemma Realized(timeout: nat, s: State, es: seq<Event>)
    requires Inv(s) && ValidEvents(timeout, Abs(s), es)
    ensures exists run :: ValidRun(timeout, s, run) && Erase(timeout, s, run) == es
                          && Abs(Exec(timeout, s, run)) == After(timeout, Abs(s), es)
  {
    var run := Realize(timeout, s, es);
  }

  function TimeoutsIn(es: seq<Event>): nat {
    if es == [] then 0 else (if es[0] == Timeout then 1 else 0) + TimeoutsIn(es[1..])
  }

  /** A call has one timeout: until the next call renews it, it cannot happen again. */
  lemma {:induction false} OneTimeoutPerCall(timeout: nat, s: Spec, es: seq<Event>)
    requires ValidEvents(timeout, s, es)
    requires forall e :: e in es ==> !e.Call? && !e.GiveUp?
    ensures TimeoutsIn(es) <= if s.deadline.At? then 1 else 0
    decreases |es|
  {
    if es != [] {
      assert es[0] in es;
      OneTimeoutPerCall(timeout, Do(timeout, s, es[0]), es[1..]);
    }
  }

  /** Two runs that differ only in wake-ups that change nothing have the same outcome. */
  lemma WakeUpsDoNotMatter(timeout: nat, s: State, run1: seq<Action>, run2: seq<Action>)
    requires Inv(s) && ValidRun(timeout, s, run1) && ValidRun(timeout, s, run2)
    requires Erase(timeout, s, run1) == Erase(timeout, s, run2)
    ensures Abs(Exec(timeout, s, run1)) == Abs(Exec(timeout, s, run2))
    ensures Exec(timeout, s, run1).Verdict() == Exec(timeout, s, run2).Verdict()
  {
    Simulates(timeout, s, run1);
    Simulates(timeout, s, run2);
  }
}
