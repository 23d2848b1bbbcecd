/** The single-threaded handler queue of a session as a timed state machine.
  *
  * One deadline wait re-arms itself for ever; one asynchronous operation runs at a time; the
  * client is either outside any call or inside a loop that runs one handler after the other until
  * the completion code of its operation changes. */
module EventLoop {
  import opened Messages

  /** The expiry of the deadline timer; a fresh timer has none, which counts as passed. */
  datatype Expiry = Unset | At(time: int) | Never

  datatype Result = Ok | Err

  /** The asynchronous operation: `steps` internal handlers are still to come before it ends. */
  datatype Operation =
    | Idle
    | InFlight(steps: nat)
    | StepReady(steps: nat)
    | DoneReady(result: Result)

  /** The completion code that the client's loop watches. */
  datatype Code = WouldBlock | Success | Failed

  /** `armed` waits are pending in the timer; `queued` wait handlers are ready to run. */
  datatype State = State(
    now: int,
    expiry: Expiry,
    open: bool,
    armed: nat,
    queued: nat,
    op: Operation,
    ec: Code)
  {
    predicate Expired() {
      match expiry
      case Unset => true
      case At(t) => t <= now
      case Never => false
    }

    /** The client is inside a loop that runs handlers. */
    predicate Looping() { ec == WouldBlock }

    /** The verdict of the call whose loop has just ended. */
    predicate Verdict() { ec == Success && open }

    predicate OperationReady() { op.StepReady? || op.DoneReady? }

    /** Some handler can run at once. */
    predicate Ready() { queued > 0 || OperationReady() }
  }

  // ---------- what the library and the session do to the state ----------

  /** expires_from_now: sets the expiry and cancels the pending wait by queueing its handler. */
  function Renew(timeout: nat, s: State): State {
    s.(expiry := At(s.now + timeout), queued := s.queued + s.armed, armed := 0)
  }

  /** Closing the socket ends a pending operation with an error. */
  function CloseSocket(s: State): State {
    s.(open := false, op := if s.op.InFlight? then DoneReady(Err) else s.op)
  }

  /** The deadline handler: closes on an expiry that has passed, and waits again in any case. */
  function WaitDeadline(s: State): State {
    var s := if s.Expired() then CloseSocket(s).(expiry := Never, queued := s.queued + s.armed, armed := 0) else s;
    s.(armed := s.armed + 1)
  }

  /** A session after its constructor. */
  function Constructed(now: int): State {
    WaitDeadline(State(now, Unset, false, 0, 0, Idle, Failed))
  }

  /** Starting an operation; on a closed socket it completes with an error. */
  function StartOperation(s: State, steps: nat): State {
    s.(ec := WouldBlock, op := if s.open then InFlight(steps) else DoneReady(Err))
  }

  datatype Kind = Connecting | Handshaking | Writing | Reading

  datatype Action =
    | Tick(d: nat)                                  // time passes
    | Fire                                          // the timer finds its expiry passed
    | Progress                                      // an internal step of the operation becomes ready
    | Finish(result: Result)                        // the operation becomes complete
    | Peer(act: PeerAct)                            // bytes move on the connection
    | RunWait                                       // run_one runs the deadline handler
    | RunOperation                                  // run_one runs a handler of the operation
    | Begin(kind: Kind, steps: nat, opens: bool)   // a call renews the deadline and starts an operation
    | RenewOnly                                     // a call renews the deadline and gives up
    | Deliver                                       // a request returns the value it has read

  predicate Enabled(s: State, a: Action) {
    match a
    case Tick(_) => true
    case Fire => s.armed > 0 && s.Expired()
    case Progress => s.op.InFlight? && s.op.steps > 0
    case Finish(_) => s.op.InFlight?
    case Peer(_) => true
    case RunWait => s.Looping() && s.queued > 0
    case RunOperation => s.Looping() && s.OperationReady()
    case Begin(_, _, _) => !s.Looping()
    case RenewOnly => !s.Looping()
    case Deliver => !s.Looping()
  }

  function RunOperationHandler(s: State): State {
    match s.op
    case StepReady(n) => s.(op := if s.open then InFlight(n) else DoneReady(Err))
    case DoneReady(r) => s.(op := Idle, ec := if r == Ok then Success else Failed)
    case _ => s
  }

  function Apply(timeout: nat, s: State, a: Action): State
    requires Enabled(s, a)
  {
    match a
    case Tick(d) => s.(now := s.now + d)
    case Fire => s.(queued := s.queued + s.armed, armed := 0)
    case Progress => s.(op := StepReady(s.op.steps - 1))
    case Finish(r) => s.(op := DoneReady(r))
    case Peer(_) => s
    case RunWait => WaitDeadline(s.(queued := s.queued - 1))
    case RunOperation => RunOperationHandler(s)
    case Begin(kind, steps, opens) =>
      var s := Renew(timeout, s);
      StartOperation(if kind == Connecting then s.(open := opens) else s, steps)
    case RenewOnly => Renew(timeout, s)
    case Deliver => s
  }

  // ---------- runs ----------

  predicate ValidRun(timeout: nat, s: State, run: seq<Action>)
    decreases |run|
  {
    run == [] || (Enabled(s, run[0]) && ValidRun(timeout, Apply(timeout, s, run[0]), run[1..]))
  }

  function Exec(timeout: nat, s: State, run: seq<Action>): State
    requires ValidRun(timeout, s, run)
    decreases |run|
  {
    if run == [] then s else Exec(timeout, Apply(timeout, s, run[0]), run[1..])
  }

  lemma {:induction false} RunSplit(timeout: nat, s: State, a: seq<Action>, b: seq<Action>)
    requires ValidRun(timeout, s, a)
    ensures ValidRun(timeout, s, a + b) <==> ValidRun(timeout, Exec(timeout, s, a), b)
    ensures ValidRun(timeout, s, a + b) ==> Exec(timeout, s, a + b) == Exec(timeout, Exec(timeout, s, a), b)
    decreases |a|
  {
    if a == [] {
      assert a + b == b;
    } else {
      assert (a + b)[1..] == a[1..] + b;
      RunSplit(timeout, Apply(timeout, s, a[0]), a[1..], b);
    }
  }

  // ---------- one wait at all times ----------

  /** What holds in every state a session can be in. */
  ghost predicate Inv(s: State) {
    && s.armed + s.queued == 1
    && (s.op == Idle <==> !s.Looping())
    && (s.op.InFlight? ==> s.open)
    && s.expiry != Unset
    && (s.Looping() && s.expiry == Never ==> !s.open)
  }

  lemma InvStep(timeout: nat, s: State, a: Action)
    requires Inv(s) && Enabled(s, a)
    ensures Inv(Apply(timeout, s, a))
  {
  }

  lemma {:induction false} InvRun(timeout: nat, s: State, run: seq<Action>)
    requires Inv(s) && ValidRun(timeout, s, run)
    ensures Inv(Exec(timeout, s, run))
    decreases |run|
  {
    if run != [] {
      InvStep(timeout, s, run[0]);
      InvRun(timeout, Apply(timeout, s, run[0]), run[1..]);
    }
  }

  /** Main result: in every state that any run of a session reaches, exactly one deadline wait is
    * outstanding, so running a handler never finds the queue out of work; an operation is under
    * way exactly while a client loops; and a client that loops on an open socket has a deadline. */
  lemma OneWaitOutstanding(timeout: nat, start: int, run: seq<Action>)
    requires ValidRun(timeout, Constructed(start), run)
    ensures var s := Exec(timeout, Constructed(start), run);
            && s.armed + s.queued == 1
            && (s.op == Idle <==> !s.Looping())
            && (s.Looping() && s.open ==> s.expiry.At?)
  {
    InvRun(timeout, Constructed(start), run);
  }

  // ---------- the loops end ----------

  /** Deadline handlers that can still run before the client's loop must end. */
  function WaitsLeft(s: State): nat {
    if s.expiry == Never then s.queued
    else if s.Expired() then 1
    else 1 + s.queued
  }

  /** Handlers of the operation that are still to run. */
  function OperationLeft(s: State): nat {
    match s.op
    case Idle => 0
    case InFlight(n) => n + 1
    case StepReady(n) => n + 2
    case DoneReady(_) => 1
  }

  predicate Environment(a: Action) {
    a.Tick? || a.Fire? || a.Progress? || a.Finish? || a.Peer?
  }

  predicate Handler(a: Action) {
    a.RunWait? || a.RunOperation?
  }

  /** Nothing the environment does adds work; every handler run removes some of its own kind. */
  lemma WorkStep(timeout: nat, s: State, a: Action)
    requires Inv(s) && Enabled(s, a) && (Environment(a) || Handler(a))
    ensures var t := Apply(timeout, s, a);
            && WaitsLeft(t) + (if a.RunWait? then 1 else 0) <= WaitsLeft(s)
            && OperationLeft(t) + (if a.RunOperation? then 1 else 0) <= OperationLeft(s)
  {
  }

  /** How often an action occurs in a run. */
  function Count(run: seq<Action>, a: Action): nat {
    if run == [] then 0 else (if run[0] == a then 1 else 0) + Count(run[1..], a)
  }

  predicate InsideLoop(run: seq<Action>) {
    forall a :: a in run ==> Environment(a) || Handler(a)
  }

  lemma {:induction false} WorkRun(timeout: nat, s: State, run: seq<Action>)
    requires Inv(s) && ValidRun(timeout, s, run) && InsideLoop(run)
    ensures Count(run, RunWait) + WaitsLeft(Exec(timeout, s, run)) <= WaitsLeft(s)
    ensures Count(run, RunOperation) + OperationLeft(Exec(timeout, s, run)) <= OperationLeft(s)
    decreases |run|
  {
    if run != [] {
      assert run[0] in run;
      assert forall a :: a in run[1..] ==> a in run;
      InvStep(timeout, s, run[0]);
      WorkStep(timeout, s, run[0]);
      WorkRun(timeout, Apply(timeout, s, run[0]), run[1..]);
    }
  }

  /** Main result: whatever the peer and the clock do, after a call has begun its loop runs at most
    * two deadline handlers (a stale one and one that closes) and at most one handler per internal
    * step of its operation, plus the completion. */
  lemma LoopIsBounded(timeout: nat, s: State, kind: Kind, steps: nat, opens: bool, run: seq<Action>)
    requires Inv(s) && !s.Looping()
    requires ValidRun(timeout, s, [Begin(kind, steps, opens)] + run) && InsideLoop(run)
    ensures Count(run, RunWait) <= 2
    ensures Count(run, RunOperation) <= steps + 1
  {
    var begin := Begin(kind, steps, opens);
    var t := Apply(timeout, s, begin);
    InvStep(timeout, s, begin);
    assert ([begin] + run)[1..] == run;
    WorkRun(timeout, t, run);
  }

  /** What unblocks a handler run when nothing is ready: the clock reaches the expiry. */
  function Unblock(s: State): seq<Action> {
    if s.Ready() || !s.expiry.At? then []
    else if s.Expired() then [Fire]
    else [Tick(s.expiry.time - s.now), Fire]
  }

  /** A looping client is never stuck: a handler is ready, or the timer makes one ready. */
  lemma NeverStuck(timeout: nat, s: State)
    requires Inv(s) && s.Looping()
    ensures ValidRun(timeout, s, Unblock(s)) && Exec(timeout, s, Unblock(s)).Ready()
  {
    if !s.Ready() && !s.Expired() {
      var tick := Tick(s.expiry.time - s.now);
      var t := Apply(timeout, s, tick);
      assert Unblock(s)[1..] == [Fire];
      assert ValidRun(timeout, t, [Fire]);
      assert Exec(timeout, t, [Fire]) == Apply(timeout, t, Fire);
    }
  }

  // ---------- verdicts ----------

  /** How often the deadline handler runs on an expiry that has passed. */
  function Closings(timeout: nat, s: State, run: seq<Action>): nat
    requires ValidRun(timeout, s, run)
    decreases |run|
  {
    if run == [] then 0
    else (if run[0].RunWait? && s.Expired() then 1 else 0) + Closings(timeout, Apply(timeout, s, run[0]), run[1..])
  }

  /** What a call's loop has established so far about its operation and its socket. */
  ghost predicate PhaseInv(s: State, finishedOk: bool, closed: bool) {
    && Inv(s)
    && (s.open <==> !closed)
    && (closed <==> s.expiry == Never)
    && match s.op
       case InFlight(_) => !finishedOk
       case StepReady(_) => !finishedOk
       case DoneReady(r) => r == Ok <==> finishedOk
       case Idle => s.ec == Success <==> finishedOk
  }

  lemma {:induction false} PhaseRun(timeout: nat, s: State, run: seq<Action>, finishedOk: bool, closed: bool)
    requires PhaseInv(s, finishedOk, closed)
    requires ValidRun(timeout, s, run) && InsideLoop(run)
    ensures PhaseInv(Exec(timeout, s, run), finishedOk || Finish(Ok) in run, closed || Closings(timeout, s, run) > 0)
    decreases |run|
  {
    if run != [] {
      var a := run[0];
      assert a in run && run == [a] + run[1..];
      var t := Apply(timeout, s, a);
      InvStep(timeout, s, a);
      var f := finishedOk || a == Finish(Ok);
      var c := closed || (a.RunWait? && s.Expired());
      assert PhaseInv(t, f, c);
      PhaseRun(timeout, t, run[1..], f, c);
    }
  }

  /** Main result: a call that has run its loop to the end returns true exactly when its socket was
    * open at the start, its operation finished without error, and no deadline handler found its
    * expiry passed on the way; and then no handler of the operation is left behind. */
  lemma VerdictExactly(timeout: nat, s: State, kind: Kind, steps: nat, opens: bool, run: seq<Action>)
    requires Inv(s) && !s.Looping()
    requires ValidRun(timeout, s, [Begin(kind, steps, opens)] + run) && InsideLoop(run)
    requires !Exec(timeout, s, [Begin(kind, steps, opens)] + run).Looping()
    ensures var t := Apply(timeout, s, Begin(kind, steps, opens));
            var u := Exec(timeout, s, [Begin(kind, steps, opens)] + run);
            && ValidRun(timeout, t, run)
            && u.op == Idle
            && (u.Verdict() <==> t.open && Finish(Ok) in run && Closings(timeout, t, run) == 0)
  {
    var begin := Begin(kind, steps, opens);
    var t := Apply(timeout, s, begin);
    InvStep(timeout, s, begin);
    assert ([begin] + run)[1..] == run;
    InvRun(timeout, t, run);
    if t.open {
      PhaseRun(timeout, t, run, false, false);
    } else {
      ClosedRun(timeout, t, run);
    }
  }

  // ---------- a deadline is not early ----------

  /** The expiry in force is `limit`, or it has come, and then not before its time. */
  ghost predicate NotEarly(s: State, limit: int) {
    s.expiry == At(limit) || (s.expiry == Never && s.now >= limit)
  }

  lemma {:induction false} NotEarlyRun(timeout: nat, s: State, run: seq<Action>, limit: int)
    requires NotEarly(s, limit) && ValidRun(timeout, s, run) && InsideLoop(run)
    ensures NotEarly(Exec(timeout, s, run), limit)
    ensures Closings(timeout, s, run) > 0 ==> Exec(timeout, s, run).now >= limit
    ensures s.open && !Exec(timeout, s, run).open ==> Exec(timeout, s, run).now >= limit
    decreases |run|
  {
    if run != [] {
      assert run[0] in run && forall a :: a in run[1..] ==> a in run;
      var t := Apply(timeout, s, run[0]);
      NotEarlyRun(timeout, t, run[1..], limit);
      ClockAdvances(timeout, t, run[1..]);
    }
  }

  lemma {:induction false} ClockAdvances(timeout: nat, s: State, run: seq<Action>)
    requires ValidRun(timeout, s, run)
    ensures Exec(timeout, s, run).now >= s.now
    decreases |run|
  {
    if run != [] {
      ClockAdvances(timeout, Apply(timeout, s, run[0]), run[1..]);
    }
  }

  /** Main result: a call whose socket is open at the start does not lose it before a whole timeout has
    * passed since its beginning, whatever wake-ups earlier calls have left behind. */
  lemma NoEarlyTimeout(timeout: nat, s: State, kind: Kind, steps: nat, opens: bool, run: seq<Action>)
    requires !s.Looping()
    requires var t := Apply(timeout, s, Begin(kind, steps, opens)); ValidRun(timeout, t, run) && InsideLoop(run)
    ensures var t := Apply(timeout, s, Begin(kind, steps, opens));
            t.open && Exec(timeout, t, run).now < s.now + timeout ==> Exec(timeout, t, run).open
  {
    NotEarlyRun(timeout, Apply(timeout, s, Begin(kind, steps, opens)), run, s.now + timeout);
  }

  // ---------- a closed socket stays closed ----------

  predicate Reconnects(a: Action) {
    a.Begin? && a.kind == Connecting
  }

  lemma {:induction false} ClosedRun(timeout: nat, s: State, run: seq<Action>)
    requires !s.open && ValidRun(timeout, s, run)
    requires forall a :: a in run ==> !Reconnects(a)
    ensures !Exec(timeout, s, run).open
    decreases |run|
  {
    if run != [] {
      assert run[0] in run;
      ClosedRun(timeout, Apply(timeout, s, run[0]), run[1..]);
    }
  }

  /** Main result: once the socket is closed, every later call's verdict is false, in runs of any
    * length, until a connect begins. */
  lemma ClosedFailsUntilConnect(timeout: nat, s: State, run: seq<Action>)
    requires !s.open && ValidRun(timeout, s, run)
    requires Exec(timeout, s, run).Verdict()
    ensures exists a :: a in run && Reconnects(a)
  {
    if forall a :: a in run ==> !Reconnects(a) {
      ClosedRun(timeout, s, run);
    }
  }

  /** This action closes a socket: the deadline handler finds the expiry now in force passed, or a
    * connect replaces the socket and fails to open the new one. */
  predicate ClosesSocket(s: State, a: Action) {
    (a == RunWait && s.Expired()) || (Reconnects(a) && !a.opens)
  }

  /** The `i`-th action of the run meets an open socket and closes it. */
  ghost predicate ClosedAt(timeout: nat, s: State, run: seq<Action>, i: nat) {
    && i < |run| && ValidRun(timeout, s, run[..i])
    && var t := Exec(timeout, s, run[..i]); t.open && ClosesSocket(t, run[i])
  }

  /** Main result: a run that starts with an open socket and ends with a closed one has, at some
    * point, met a deadline whose expiry then in force had passed, or a connect that failed to open. */
  lemma {:induction false} WhoCloses(timeout: nat, s: State, run: seq<Action>)
    requires s.open && ValidRun(timeout, s, run) && !Exec(timeout, s, run).open
    ensures exists i: nat :: ClosedAt(timeout, s, run, i)
    decreases |run|
  {
    var t := Apply(timeout, s, run[0]);
    if t.open {
      WhoCloses(timeout, t, run[1..]);
      var i: nat :| ClosedAt(timeout, t, run[1..], i);
      assert run[..i + 1][1..] == run[1..][..i];
      assert ClosedAt(timeout, s, run, i + 1);
    } else {
      assert run[..0] == [];
      assert ClosedAt(timeout, s, run, 0);
    }
  }

  /** An idle gap of any length, however the timer fires in it, closes nothing; and the wake-up it
    * leaves behind does nothing to the next call but wait again. */
  lemma IdleGapHarmless(timeout: nat, s: State, gap: seq<Action>, kind: Kind, steps: nat)
    requires timeout > 0 && Inv(s) && !s.Looping() && s.open
    requires ValidRun(timeout, s, gap) && forall a :: a in gap ==> Environment(a)
    ensures var t := Exec(timeout, s, gap);
            && t.open && !t.Looping()
            && var u := Apply(timeout, t, Begin(kind, steps, true));
               && Enabled(u, RunWait)
               && Apply(timeout, u, RunWait) == u.(queued := 0, armed := 1)
  {
    IdleGap(timeout, s, gap);
  }

  lemma {:induction false} IdleGap(timeout: nat, s: State, gap: seq<Action>)
    requires Inv(s) && !s.Looping()
    requires ValidRun(timeout, s, gap) && forall a :: a in gap ==> Environment(a)
    ensures var t := Exec(timeout, s, gap); Inv(t) && t.open == s.open && !t.Looping()
    decreases |gap|
  {
    if gap != [] {
      assert gap[0] in gap;
      InvStep(timeout, s, gap[0]);
      IdleGap(timeout, Apply(timeout, s, gap[0]), gap[1..]);
    }
  }

  // ---------- how long a call takes ----------

  /** Ready handlers run before time advances, and time never skips an expiry. */
  predicate Prompt(s: State, a: Action) {
    a.Tick? && a.d > 0 ==> !s.Ready() && (s.armed > 0 && s.expiry.At? ==> s.now + a.d <= s.expiry.time)
  }

  predicate PromptRun(timeout: nat, s: State, run: seq<Action>)
    requires ValidRun(timeout, s, run)
    decreases |run|
  {
    run == [] || (Prompt(s, run[0]) && PromptRun(timeout, Apply(timeout, s, run[0]), run[1..]))
  }

  lemma {:induction false} PromptSplit(timeout: nat, s: State, a: seq<Action>, b: seq<Action>)
    requires ValidRun(timeout, s, a) && ValidRun(timeout, s, a + b)
    ensures ValidRun(timeout, Exec(timeout, s, a), b)
    ensures PromptRun(timeout, s, a + b) <==> PromptRun(timeout, s, a) && PromptRun(timeout, Exec(timeout, s, a), b)
    decreases |a|
  {
    RunSplit(timeout, s, a, b);
    if a == [] {
      assert a + b == b;
    } else {
      assert (a + b)[1..] == a[1..] + b;
      PromptSplit(timeout, Apply(timeout, s, a[0]), a[1..], b);
    }
  }

  /** A looping client has not passed `limit`, and cannot without running something first. */
  ghost predicate OnTime(s: State, limit: int) {
    && Inv(s)
    && s.now <= limit
    && (s.Looping() ==> s.expiry == At(limit) || (s.expiry == Never && !s.open))
  }

  /** Every action of the run happens while the client loops. */
  predicate WhileLooping(timeout: nat, s: State, run: seq<Action>)
    requires ValidRun(timeout, s, run)
    decreases |run|
  {
    run == [] || (s.Looping() && WhileLooping(timeout, Apply(timeout, s, run[0]), run[1..]))
  }

  lemma {:induction false} OnTimeRun(timeout: nat, s: State, run: seq<Action>, limit: int)
    requires OnTime(s, limit)
    requires ValidRun(timeout, s, run) && WhileLooping(timeout, s, run)
    requires InsideLoop(run) && PromptRun(timeout, s, run)
    ensures OnTime(Exec(timeout, s, run), limit)
    decreases |run|
  {
    if run != [] {
      assert run[0] in run;
      InvStep(timeout, s, run[0]);
      OnTimeRun(timeout, Apply(timeout, s, run[0]), run[1..], limit);
    }
  }

  /** Main result: when ready handlers run before time advances, a call returns within one timeout
    * of its beginning, whatever the peer does. */
  lemma CallReturnsInTime(timeout: nat, s: State, kind: Kind, steps: nat, opens: bool, run: seq<Action>)
    requires Inv(s) && !s.Looping()
    requires Enabled(s, Begin(kind, steps, opens))
    requires var t := Apply(timeout, s, Begin(kind, steps, opens));
             && ValidRun(timeout, t, run) && WhileLooping(timeout, t, run)
             && InsideLoop(run) && PromptRun(timeout, t, run)
    ensures Exec(timeout, Apply(timeout, s, Begin(kind, steps, opens)), run).now <= s.now + timeout
  {
    var t := Apply(timeout, s, Begin(kind, steps, opens));
    InvStep(timeout, s, Begin(kind, steps, opens));
    OnTimeRun(timeout, t, run, s.now + timeout);
  }
}
