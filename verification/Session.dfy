/** The session object: one socket, one deadline timer, one operation at a time.
  *
  * Its methods change its fields as the C++ methods do.  What the library, the peer and the clock
  * do is chosen arbitrarily, within the transitions of EventLoop and Connection; `trace` records
  * every transition, so each theorem about runs is a theorem about these objects. */
module Session {
  import opened Wrappers
  import opened Messages
  import opened EventLoop
  import opened Connection
  import Numerals

  /** How resolving the host name ends. */
  datatype Resolution = Resolved | NoAddress | ResolverThrows

  /** What the resolver, the TLS library and the peer do while connecting.  `connectThrows` and
    * `handshakeThrows` say whether the start of the operation throws an exception. */
  datatype ConnectInput = ConnectInput(
    resolution: Resolution,
    serverNameSet: bool,
    connectThrows: bool,
    opens: bool,
    steps: nat,
    handshakeThrows: bool,
    handshakeSteps: nat)
  {
    /** Connecting ends between renewing its deadline and starting its operation. */
    predicate GivesUp(useSsl: bool) { (useSsl && !serverNameSet) || connectThrows }
  }

  /** A call of one of the two handlers that a request is given. */
  datatype HandlerCall = OnResponse(reply: Reply) | OnError(code: ErrorCode)

  /** What the environment may do before the next handler runs. */
  predicate EnvironmentRun(timeout: nat, w: World, run: seq<Action>, prompt: bool) {
    && (forall a :: a in run ==> Environment(a))
    && WValid(timeout, w, run)
    && WExec(timeout, w, run).loop.Ready()
    && ValidRun(timeout, w.loop, run)
    && (prompt ==> PromptRun(timeout, w.loop, run))
  }

  /** The timer alone can always make a handler ready. */
  lemma TimerUnblocks(timeout: nat, w: World, prompt: bool)
    requires Inv(w.loop) && w.loop.Looping()
    ensures EnvironmentRun(timeout, w, Unblock(w.loop), prompt)
  {
    var run := Unblock(w.loop);
    NeverStuck(timeout, w.loop);
    if run != [] {
      var v := WApply(timeout, w, run[0]);
      if |run| == 2 {
        assert run[1..] == [Fire] && [Fire][1..] == [];
        assert WExec(timeout, v, [Fire]) == WApply(timeout, v, Fire);
      } else {
        assert run[1..] == [];
      }
    }
  }

  lemma {:induction false} EnvironmentKeepsLooping(timeout: nat, s: State, run: seq<Action>)
    requires ValidRun(timeout, s, run) && forall a :: a in run ==> Environment(a)
    ensures Exec(timeout, s, run).ec == s.ec
    ensures s.Looping() ==> WhileLooping(timeout, s, run)
    decreases |run|
  {
    if run != [] {
      assert run[0] in run;
      EnvironmentKeepsLooping(timeout, Apply(timeout, s, run[0]), run[1..]);
    }
  }

  lemma {:induction false} WhileLoopingSplit(timeout: nat, s: State, a: seq<Action>, b: seq<Action>)
    requires ValidRun(timeout, s, a) && ValidRun(timeout, s, a + b)
    ensures ValidRun(timeout, Exec(timeout, s, a), b)
    ensures WhileLooping(timeout, s, a + b)
       <==> WhileLooping(timeout, s, a) && WhileLooping(timeout, Exec(timeout, s, a), b)
    decreases |a|
  {
    RunSplit(timeout, s, a, b);
    if a == [] {
      assert a + b == b;
    } else {
      assert (a + b)[1..] == a[1..] + b;
      WhileLoopingSplit(timeout, Apply(timeout, s, a[0]), a[1..], b);
    }
  }

  /** A run of a loop, as one run_one after the other makes it. */
  ghost predicate LoopRun(timeout: nat, w: World, run: seq<Action>, prompt: bool) {
    && WValid(timeout, w, run) && ValidRun(timeout, w.loop, run)
    && InsideLoop(run) && WhileLooping(timeout, w.loop, run)
    && (prompt ==> PromptRun(timeout, w.loop, run))
  }

  lemma LoopRunJoin(timeout: nat, w: World, a: seq<Action>, b: seq<Action>, prompt: bool)
    requires LoopRun(timeout, w, a, prompt) && LoopRun(timeout, WExec(timeout, w, a), b, prompt)
    ensures LoopRun(timeout, w, a + b, prompt)
    ensures WExec(timeout, w, a + b) == WExec(timeout, WExec(timeout, w, a), b)
  {
    WSplit(timeout, w, a, b);
    LoopOfWorld(timeout, w, a);
    LoopOfWorld(timeout, w, a + b);
    WhileLoopingSplit(timeout, w.loop, a, b);
    PromptSplit(timeout, w.loop, a, b);
  }

  lemma EnvironmentLoopRun(timeout: nat, w: World, run: seq<Action>, prompt: bool)
    requires Inv(w.loop) && w.loop.Looping() && EnvironmentRun(timeout, w, run, prompt)
    ensures LoopRun(timeout, w, run, prompt)
    ensures var s := WExec(timeout, w, run).loop;
            && s.Looping() && WaitsLeft(s) <= WaitsLeft(w.loop) && OperationLeft(s) <= OperationLeft(w.loop)
  {
    EnvironmentKeepsLooping(timeout, w.loop, run);
    LoopOfWorld(timeout, w, run);
    WorkRun(timeout, w.loop, run);
  }

  lemma HandlerLoopRun(timeout: nat, w: World, a: Action, prompt: bool)
    requires Handler(a) && WEnabled(w, a)
    ensures LoopRun(timeout, w, [a], prompt) && WExec(timeout, w, [a]) == WApply(timeout, w, a)
  {
    assert [a][1..] == [];
  }

  /** A loop keeps the invariant of the connection. */
  lemma {:induction false} LoopKeeps(timeout: nat, w: World, run: seq<Action>)
    requires WInv(w) && WValid(timeout, w, run) && InsideLoop(run)
    ensures WInv(WExec(timeout, w, run))
    decreases |run|
  {
    if run != [] {
      assert run[0] in run && forall a :: a in run[1..] ==> a in run;
      WInvStep(timeout, w, run[0]);
      LoopKeeps(timeout, WApply(timeout, w, run[0]), run[1..]);
    }
  }

  /** And, when the peer sends none, its freedom from junk. */
  lemma LoopKeepsNoJunk(timeout: nat, w: World, run: seq<Action>)
    requires WInv(w) && NoJunk(w) && WValid(timeout, w, run) && InsideLoop(run) && WellFormed(run)
    ensures NoJunk(WExec(timeout, w, run))
  {
    WithoutWrites(timeout, w, run, true, false);
    MatchingRun(timeout, w, run, false);
  }

  // ---------- whole calls ----------

  /** The call that begins with `begin` has run its loop to the end. */
  ghost predicate Completed(timeout: nat, w: World, begin: Action, run: seq<Action>) {
    && begin.Begin? && WEnabled(w, begin)
    && WValid(timeout, WApply(timeout, w, begin), run) && InsideLoop(run)
    && !WExec(timeout, WApply(timeout, w, begin), run).loop.Looping()
  }

  ghost function After(timeout: nat, w: World, begin: Action, run: seq<Action>): World
    requires Completed(timeout, w, begin, run)
  {
    WExec(timeout, WApply(timeout, w, begin), run)
  }

  /** The call as part of a trace: a disciplined run without a connect, unless it is one. */
  lemma CompletedRun(timeout: nat, w: World, begin: Action, run: seq<Action>)
    requires Completed(timeout, w, begin, run)
    ensures WValid(timeout, w, [begin] + run) && WExec(timeout, w, [begin] + run) == After(timeout, w, begin, run)
    ensures Requests(timeout, w, [begin] + run) <==> (Writes(begin) ==> !MustRead(w))
    ensures WellFormed([begin] + run) <==> WellFormed(run)
    ensures !Reconnects(begin) ==> forall a :: a in [begin] + run ==> !Reconnects(a)
  {
    assert ([begin] + run)[1..] == run;
    WithoutWrites(timeout, WApply(timeout, w, begin), run, true, false);
    WellFormedJoin([begin], run);
  }

  /** Two calls, one after the other. */
  lemma TwoCompleted(timeout: nat, w: World, a: Action, x: seq<Action>, b: Action, y: seq<Action>)
    requires Completed(timeout, w, a, x) && Completed(timeout, After(timeout, w, a, x), b, y)
    ensures Reaches(timeout, w, ([a] + x) + ([b] + y), After(timeout, After(timeout, w, a, x), b, y))
    ensures WellFormed(([a] + x) + ([b] + y)) <==> WellFormed(x) && WellFormed(y)
    ensures !Reconnects(a) && !Reconnects(b) ==> forall c :: c in ([a] + x) + ([b] + y) ==> !Reconnects(c)
  {
    CompletedRun(timeout, w, a, x);
    CompletedRun(timeout, After(timeout, w, a, x), b, y);
    WSplit(timeout, w, [a] + x, [b] + y);
    WellFormedJoin([a] + x, [b] + y);
  }

  /** A run that goes on. */
  lemma ReachesOn(timeout: nat, w: World, a: seq<Action>, v: World, b: seq<Action>, u: World)
    requires Reaches(timeout, w, a, v) && Reaches(timeout, v, b, u)
    ensures Reaches(timeout, w, a + b, u)
    ensures WellFormed(a + b) <==> WellFormed(a) && WellFormed(b)
    ensures (forall c :: c in a + b ==> !Reconnects(c)) <==> forall c :: c in a || c in b ==> !Reconnects(c)
  {
    WSplit(timeout, w, a, b);
    WellFormedJoin(a, b);
  }

  /** One phase of connecting: the deadline is renewed, and then either an exception ends the phase, or
    * its operation runs, with the loop `part`. */
  ghost predicate Attempted(timeout: nat, w: World, begin: Action, throws: bool, part: seq<Action>) {
    if throws then WEnabled(w, RenewOnly) && part == [] else Completed(timeout, w, begin, part)
  }

  ghost function AfterAttempt(timeout: nat, w: World, begin: Action, throws: bool, part: seq<Action>): World
    requires Attempted(timeout, w, begin, throws, part)
  {
    if throws then WApply(timeout, w, RenewOnly) else After(timeout, w, begin, part)
  }

  /** The calls of the error handler in such a phase, and its trace. */
  ghost function AttemptCalls(timeout: nat, w: World, begin: Action, throws: bool, part: seq<Action>): seq<ErrorCode>
    requires Attempted(timeout, w, begin, throws, part)
  {
    if throws then [FAIL] else if After(timeout, w, begin, part).loop.Verdict() then [] else [TIMEOUT]
  }

  function AttemptRun(begin: Action, throws: bool, part: seq<Action>): seq<Action> {
    if throws then [RenewOnly] else [begin] + part
  }

  /** What a run of whole calls keeps of the connection: its invariant, its being clean, and, if the peer
    * sends nothing but answers, its freedom from junk. */
  ghost predicate Keeps(w: World, run: seq<Action>, v: World) {
    WInv(w) ==>
      && WInv(v)
      && (Outstanding(w.wire) == [] ==> Outstanding(v.wire) == [])
      && (NoJunk(w) && WellFormed(run) ==> NoJunk(v))
  }

  lemma KeepsOn(w: World, a: seq<Action>, v: World, b: seq<Action>, u: World)
    requires Keeps(w, a, v) && Keeps(v, b, u)
    ensures Keeps(w, a + b, u)
  {
    WellFormedJoin(a, b);
  }

  /** How connecting goes: nothing happens for a host without address; else the socket connects and,
    * with TLS, shakes hands if that succeeds.  `calls` are the calls of the error handler. */
  ghost predicate Connects(
    timeout: nat, w: World, useSsl: bool, input: ConnectInput,
    first: seq<Action>, second: seq<Action>, run: seq<Action>, calls: seq<ErrorCode>)
  {
    var begin, gives := Begin(Connecting, input.steps, input.opens), input.GivesUp(useSsl);
    var shake, throws := Begin(Handshaking, input.handshakeSteps, true), input.handshakeThrows;
    match input.resolution
    case NoAddress => first == second == run == [] && calls == [NOT_FOUND]
    case ResolverThrows => first == second == run == [] && calls == [FAIL]
    case Resolved =>
      && Attempted(timeout, w, begin, gives, first)
      && var v := AfterAttempt(timeout, w, begin, gives, first);
         var errors := AttemptCalls(timeout, w, begin, gives, first);
         if useSsl && errors == [] then
           && Attempted(timeout, v, shake, throws, second)
           && calls == AttemptCalls(timeout, v, shake, throws, second)
           && run == AttemptRun(begin, gives, first) + AttemptRun(shake, throws, second)
         else
           second == [] && calls == errors && run == AttemptRun(begin, gives, first)
  }

  /** Where connecting ends. */
  ghost function ConnectEnd(
    timeout: nat, w: World, useSsl: bool, input: ConnectInput,
    first: seq<Action>, second: seq<Action>, run: seq<Action>, calls: seq<ErrorCode>): World
    requires Connects(timeout, w, useSsl, input, first, second, run, calls)
  {
    var begin, gives := Begin(Connecting, input.steps, input.opens), input.GivesUp(useSsl);
    var shake, throws := Begin(Handshaking, input.handshakeSteps, true), input.handshakeThrows;
    if input.resolution != Resolved then w
    else if useSsl && AttemptCalls(timeout, w, begin, gives, first) == [] then
      AfterAttempt(timeout, AfterAttempt(timeout, w, begin, gives, first), shake, throws, second)
    else
      AfterAttempt(timeout, w, begin, gives, first)
  }

  lemma AttemptReaches(timeout: nat, w: World, begin: Action, throws: bool, part: seq<Action>)
    requires Attempted(timeout, w, begin, throws, part)
    ensures Reaches(timeout, w, AttemptRun(begin, throws, part), AfterAttempt(timeout, w, begin, throws, part))
  {
    if throws {
      assert [RenewOnly][1..] == [];
    } else {
      CompletedRun(timeout, w, begin, part);
    }
  }

  lemma ConnectReaches(
    timeout: nat, w: World, useSsl: bool, input: ConnectInput,
    first: seq<Action>, second: seq<Action>, run: seq<Action>, calls: seq<ErrorCode>)
    requires Connects(timeout, w, useSsl, input, first, second, run, calls)
    ensures Reaches(timeout, w, run, ConnectEnd(timeout, w, useSsl, input, first, second, run, calls))
  {
    var begin, gives := Begin(Connecting, input.steps, input.opens), input.GivesUp(useSsl);
    var shake, throws := Begin(Handshaking, input.handshakeSteps, true), input.handshakeThrows;
    if input.resolution == Resolved {
      AttemptReaches(timeout, w, begin, gives, first);
      if useSsl && AttemptCalls(timeout, w, begin, gives, first) == [] {
        var v := AfterAttempt(timeout, w, begin, gives, first);
        AttemptReaches(timeout, v, shake, throws, second);
        ReachesOn(timeout, w, AttemptRun(begin, gives, first), v, AttemptRun(shake, throws, second),
                  AfterAttempt(timeout, v, shake, throws, second));
      }
    }
  }

  /** How a request goes on the wire: it writes and, if that succeeds, reads.  The exchange is a
    * reply exactly if both operations have succeeded. */
  ghost predicate Exchanged(
    timeout: nat, w: World, writeSteps: nat, readSteps: nat, exchange: Exchange, wrote: seq<Action>, read: seq<Action>)
  {
    var begin, again := Begin(Writing, writeSteps, true), Begin(Reading, readSteps, true);
    && Completed(timeout, w, begin, wrote)
    && var v := After(timeout, w, begin, wrote);
       if v.loop.Verdict() then
         && Completed(timeout, v, again, read)
         && var u := After(timeout, v, again, read);
            if u.loop.Verdict() then
              && u.wire.got.Some? && u.wire.got.value.Response?
              && exchange == Replied(u.wire.got.value.reply)
            else exchange == ReadFails
       else read == [] && exchange == WriteFails
  }

  /** The trace of such an exchange. */
  function ExchangeRun(
    writeSteps: nat, readSteps: nat, exchange: Exchange, wrote: seq<Action>, read: seq<Action>): seq<Action>
  {
    ([Begin(Writing, writeSteps, true)] + wrote)
    + if exchange == WriteFails then [] else [Begin(Reading, readSteps, true)] + read
  }

  /** Where it ends. */
  ghost function ExchangeEnd(
    timeout: nat, w: World, writeSteps: nat, readSteps: nat, exchange: Exchange, wrote: seq<Action>, read: seq<Action>): World
    requires Exchanged(timeout, w, writeSteps, readSteps, exchange, wrote, read)
  {
    var v := After(timeout, w, Begin(Writing, writeSteps, true), wrote);
    if exchange == WriteFails then v else After(timeout, v, Begin(Reading, readSteps, true), read)
  }

  /** The trace leads there, and never connects. */
  lemma ExchangeReaches(
    timeout: nat, w: World, writeSteps: nat, readSteps: nat, exchange: Exchange, wrote: seq<Action>, read: seq<Action>)
    requires Exchanged(timeout, w, writeSteps, readSteps, exchange, wrote, read)
    ensures var run := ExchangeRun(writeSteps, readSteps, exchange, wrote, read);
            && Reaches(timeout, w, run, ExchangeEnd(timeout, w, writeSteps, readSteps, exchange, wrote, read))
            && (WellFormed(run) <==> WellFormed(wrote) && WellFormed(read))
            && forall a :: a in run ==> !Reconnects(a)
  {
    var begin, again := Begin(Writing, writeSteps, true), Begin(Reading, readSteps, true);
    if exchange == WriteFails {
      CompletedRun(timeout, w, begin, wrote);
      assert ExchangeRun(writeSteps, readSteps, exchange, wrote, read) == [begin] + wrote;
    } else {
      TwoCompleted(timeout, w, begin, wrote, again, read);
    }
  }

  /** And with what the request makes of its response. */
  lemma RequestReaches(
    timeout: nat, w: World, writeSteps: nat, readSteps: nat, exchange: Exchange, wrote: seq<Action>, read: seq<Action>,
    rest: seq<Action>, u: World)
    requires Exchanged(timeout, w, writeSteps, readSteps, exchange, wrote, read)
    requires Reaches(timeout, ExchangeEnd(timeout, w, writeSteps, readSteps, exchange, wrote, read), rest, u)
    requires forall a :: a in rest ==> a == Deliver
    ensures var run := ExchangeRun(writeSteps, readSteps, exchange, wrote, read) + rest;
            && Reaches(timeout, w, run, u)
            && (WellFormed(run) <==> WellFormed(wrote) && WellFormed(read))
            && forall a :: a in run ==> !Reconnects(a)
  {
    ExchangeReaches(timeout, w, writeSteps, readSteps, exchange, wrote, read);
    ReachesOn(timeout, w, ExchangeRun(writeSteps, readSteps, exchange, wrote, read),
              ExchangeEnd(timeout, w, writeSteps, readSteps, exchange, wrote, read), rest, u);
  }

  /** The read begins exactly if the write has not failed. */
  lemma ReadBegins(
    timeout: nat, w: World, writeSteps: nat, readSteps: nat, exchange: Exchange, wrote: seq<Action>, read: seq<Action>,
    rest: seq<Action>)
    requires Exchanged(timeout, w, writeSteps, readSteps, exchange, wrote, read)
    requires forall a :: a in rest ==> a == Deliver
    ensures Begin(Reading, readSteps, true) in ExchangeRun(writeSteps, readSteps, exchange, wrote, read) + rest
       <==> exchange != WriteFails
  {
    var again := Begin(Reading, readSteps, true);
    var first := [Begin(Writing, writeSteps, true)] + wrote;
    assert again !in first && again !in rest;
    if exchange != WriteFails {
      assert again in [again] + read;
      assert again in first + ([again] + read);
    }
  }

  /** A read that has succeeded has a response. */
  ghost predicate ReadGot(w: World) {
    w.wire.kind == Reading && Came(w.loop, Ok) ==> w.wire.got.Some? && w.wire.got.value.Response?
  }

  lemma {:induction false} LoopReads(timeout: nat, w: World, run: seq<Action>)
    requires ReadGot(w) && WValid(timeout, w, run) && InsideLoop(run)
    ensures ReadGot(WExec(timeout, w, run))
    decreases |run|
  {
    if run != [] {
      assert run[0] in run && forall a :: a in run[1..] ==> a in run;
      LoopReads(timeout, WApply(timeout, w, run[0]), run[1..]);
    }
  }

  /** What a whole call keeps. */
  lemma CallKeeps(timeout: nat, w: World, begin: Action, run: seq<Action>)
    requires WInv(w) && WEnabled(w, begin) && begin.Begin?
    requires Writes(begin) ==> Outstanding(w.wire) == []
    requires WValid(timeout, WApply(timeout, w, begin), run) && InsideLoop(run)
    ensures var v := WExec(timeout, WApply(timeout, w, begin), run);
            && WInv(v) && v.wire.kind == begin.kind && ReadGot(v)
            && v.wire.next == (if begin.kind == Writing then w.wire.next + 1 else w.wire.next)
            && (NoJunk(w) && WellFormed(run) ==> NoJunk(v))
  {
    WInvStep(timeout, w, begin);
    if NoJunk(w) {
      NoJunkStep(timeout, w, begin);
    }
    var u := WApply(timeout, w, begin);
    LoopKeeps(timeout, u, run);
    if NoJunk(w) && WellFormed(run) {
      LoopKeepsNoJunk(timeout, u, run);
    }
    LoopKeepsKind(timeout, u, run);
    LoopReads(timeout, u, run);
  }

  lemma {:induction false} IdleKeeps(timeout: nat, w: World, run: seq<Action>)
    requires Inv(w.loop) && !w.loop.Looping() && WValid(timeout, w, run)
    requires forall a :: a in run ==> Environment(a)
    ensures var v := WExec(timeout, w, run);
            && Inv(v.loop) && v.loop.open == w.loop.open && v.loop.ec == w.loop.ec
            && v.wire.kind == w.wire.kind && v.wire.next == w.wire.next && v.wire.log == w.wire.log
            && (WInv(w) ==> WInv(v) && (Outstanding(w.wire) == [] ==> Outstanding(v.wire) == []))
            && (NoJunk(w) && WInv(w) && WellFormed(run) ==> NoJunk(v))
    decreases |run|
  {
    if run != [] {
      var a := run[0];
      assert a in run && forall b :: b in run[1..] ==> b in run;
      InvStep(timeout, w.loop, a);
      if WInv(w) {
        WInvStep(timeout, w, a);
        if Outstanding(w.wire) == [] {
          IdleOutstanding(timeout, w, a);
        }
        if NoJunk(w) && WellFormed(run) {
          NoJunkStep(timeout, w, a);
        }
      }
      IdleKeeps(timeout, WApply(timeout, w, a), run[1..]);
    }
  }

  lemma IdleOutstanding(timeout: nat, w: World, a: Action)
    requires !w.loop.Looping() && Inv(w.loop) && WEnabled(w, a) && Environment(a)
    requires Outstanding(w.wire) == []
    ensures Outstanding(WApply(timeout, w, a).wire) == []
  {
    if a == Peer(Junk) {
      CallsOfConcat(w.wire.unread, [Garbage]);
      CallsOfOne(Garbage);
    }
  }

  class Session {
    const host: string
    const port: string
    const target: string
    const useSsl: bool
    const timeout: nat
    /** Whether ready handlers run before time advances. */
    const prompt: bool
    ghost const start: int

    var now: int
    var expiry: Expiry
    var open: bool
    var armed: nat
    var queued: nat
    var op: Operation
    var ec: Code
    var wire: Wire
    ghost var trace: seq<Action>

    function Loop(): State
      reads this
    {
      State(now, expiry, open, armed, queued, op, ec)
    }

    function View(): World
      reads this
    {
      World(Loop(), wire)
    }

    /** The object is where its trace has brought it. */
    ghost predicate Valid()
      reads this
    {
      && WValid(timeout, Init(start), trace)
      && View() == WExec(timeout, Init(start), trace)
      && Inv(Loop())
    }

    /** So far the session has been used for whole requests. */
    ghost predicate Orderly()
      reads this
    {
      WValid(timeout, Init(start), trace) && Requests(timeout, Init(start), trace)
    }

    /** No call is under way, and no write waits for its read. */
    predicate Quiet()
      reads this
    {
      !Loop().Looping() && !MustRead(View())
    }

    /** The connection carries nothing that belongs to an earlier call. */
    ghost predicate Clean()
      reads this
    {
      WInv(View()) && Outstanding(wire) == []
    }

    constructor (host: string, port: nat, target: string, useSsl: bool, timeout: nat, prompt: bool, now: int)
      ensures this.host == host && this.port == Numerals.ToDecimal(port) && this.target == target
      ensures Valid() && Quiet() && Orderly() && Clean() && NoJunk(View())
      ensures this.useSsl == useSsl && this.timeout == timeout && this.prompt == prompt
      ensures trace == [] && View() == Init(now)
      ensures !open && op == Idle && expiry == Never && armed == 1 && queued == 0 && this.now == now
    {
      this.host := host;
      this.port := Numerals.ToDecimal(port);
      this.target := target;
      this.useSsl := useSsl;
      this.timeout := timeout;
      this.prompt := prompt;
      this.start := now;
      this.now := now;
      expiry, open, armed, queued, op, ec := Unset, false, 0, 0, Idle, Failed;
      wire := Wire(0, Connecting, false, [], [], None, []);
      trace := [];
      new;
      WaitDeadline();
      InitInv(start);
    }

    /** The deadline handler, which also starts the first wait. */
    method WaitDeadline()
      modifies this`open, this`op, this`wire, this`expiry, this`armed, this`queued
      ensures Loop() == EventLoop.WaitDeadline(old(Loop()))
      ensures var passed := old(expiry) == Unset || (old(expiry).At? && old(expiry.time) <= now);
              && open == (old(open) && !passed) && expiry == (if passed then Never else old(expiry))
              && armed > 0 && armed + queued == old(armed + queued) + 1
      ensures wire == if old(Loop()).Expired() then old(wire).Dead() else old(wire)
    {
      if Loop().Expired() {
        Close();
        expiry := Never;
        queued, armed := queued + armed, 0;
      }
      armed := armed + 1;
    }

    /** Closing the socket aborts the operation in flight. */
    method Close()
      modifies this`open, this`op, this`wire
      ensures Loop() == CloseSocket(old(Loop())) && wire == old(wire).Dead()
      ensures !open && op == if old(op.InFlight?) then DoneReady(Err) else old(op)
    {
      open := false;
      wire := wire.Dead();
      if op.InFlight? {
        op := DoneReady(Err);
      }
    }

    method CheckSocket() returns (isOpen: bool)
      ensures isOpen == open
    {
      isOpen := open;
    }

    ghost method Record(w: World, a: Action)
      requires WValid(timeout, Init(start), trace) && w == WExec(timeout, Init(start), trace)
      requires WEnabled(w, a) && Inv(w.loop) && View() == WApply(timeout, w, a)
      modifies this`trace
      ensures Valid() && trace == old(trace) + [a]
      ensures old(Orderly()) && !Writes(a) ==> Orderly()
    {
      InvStep(timeout, w.loop, a);
      assert [a][1..] == [];
      WSplit(timeout, Init(start), trace, [a]);
      DisciplineSplit(timeout, Init(start), trace, [a], true, false);
      trace := trace + [a];
    }

    /** The library, the peer and the clock act. */
    method Happen(acts: seq<Action>)
      requires Valid() && WValid(timeout, View(), acts) && forall a :: a in acts ==> Environment(a)
      modifies this
      ensures Valid() && trace == old(trace) + acts
      ensures View() == WExec(timeout, old(View()), acts)
      ensures old(Orderly()) ==> Orderly()
    {
      var v := WExec(timeout, View(), acts);
      LoopOfWorld(timeout, View(), acts);
      InvRun(timeout, Loop(), acts);
      WSplit(timeout, Init(start), trace, acts);
      WithoutWrites(timeout, View(), acts, true, false);
      DisciplineSplit(timeout, Init(start), trace, acts, true, false);
      now, expiry, open, armed, queued := v.loop.now, v.loop.expiry, v.loop.open, v.loop.armed, v.loop.queued;
      op, ec, wire := v.loop.op, v.loop.ec, v.wire;
      trace := trace + acts;
    }

    /** Whatever happens until some handler is ready. */
    method AwaitHandler() returns (ghost run: seq<Action>)
      requires Valid() && Loop().Looping()
      modifies this
      ensures Valid() && Loop().Looping() && Loop().Ready()
      ensures trace == old(trace) + run && LoopRun(timeout, old(View()), run, prompt)
      ensures View() == WExec(timeout, old(View()), run)
      ensures WaitsLeft(Loop()) <= old(WaitsLeft(Loop())) && OperationLeft(Loop()) <= old(OperationLeft(Loop()))
    {
      var acts: seq<Action> := *;
      if !EnvironmentRun(timeout, View(), acts, prompt) {
        acts := Unblock(Loop());
        TimerUnblocks(timeout, View(), prompt);
      }
      EnvironmentLoopRun(timeout, View(), acts, prompt);
      Happen(acts);
      run := acts;
    }

    /** run_one: waits until a handler is ready, and runs one of those that are. */
    method RunOne() returns (ghost run: seq<Action>)
      requires Valid() && Loop().Looping()
      modifies this
      ensures Valid()
      ensures trace == old(trace) + run && LoopRun(timeout, old(View()), run, prompt)
      ensures View() == WExec(timeout, old(View()), run)
      ensures WaitsLeft(Loop()) + OperationLeft(Loop()) < old(WaitsLeft(Loop()) + OperationLeft(Loop()))
    {
      run := AwaitHandler();
      ghost var w, a := View(), RunWait;
      var deadlineFirst: bool := *;
      if queued > 0 && (deadlineFirst || !Loop().OperationReady()) {
        RunDeadlineHandler();
      } else {
        a := RunOperation;
        RunOperationHandler();
      }
      WorkStep(timeout, w.loop, a);
      HandlerLoopRun(timeout, w, a, prompt);
      LoopRunJoin(timeout, old(View()), run, [a], prompt);
      run := run + [a];
    }

    method RunDeadlineHandler()
      requires Valid() && WEnabled(View(), RunWait)
      modifies this
      ensures Valid() && trace == old(trace) + [RunWait]
      ensures View() == WApply(timeout, old(View()), RunWait)
    {
      ghost var w := View();
      queued := queued - 1;
      WaitDeadline();
      Record(w, RunWait);
    }

    method RunOperationHandler()
      requires Valid() && WEnabled(View(), RunOperation)
      modifies this
      ensures Valid() && trace == old(trace) + [RunOperation]
      ensures View() == WApply(timeout, old(View()), RunOperation)
    {
      ghost var w := View();
      if op.StepReady? {
        op := if open then InFlight(op.steps) else DoneReady(Err);
      } else {
        op, ec := Idle, if op.result == Ok then Success else Failed;
      }
      Record(w, RunOperation);
    }

    /** do ioc.run_one(); while (ec == would_block); */
    method RunLoop() returns (ghost run: seq<Action>)
      requires Valid() && Loop().Looping()
      modifies this
      ensures Valid() && !Loop().Looping()
      ensures trace == old(trace) + run && LoopRun(timeout, old(View()), run, prompt)
      ensures View() == WExec(timeout, old(View()), run)
    {
      run := RunOne();
      while ec == WouldBlock
        invariant Valid()
        invariant trace == old(trace) + run && LoopRun(timeout, old(View()), run, prompt)
        invariant View() == WExec(timeout, old(View()), run)
        decreases WaitsLeft(Loop()) + OperationLeft(Loop())
      {
        ghost var more := RunOne();
        LoopRunJoin(timeout, old(View()), run, more, prompt);
        run := run + more;
      }
    }

    /** expires_from_now: the pending wait is cancelled, which queues its handler. */
    method RenewDeadline()
      modifies this`expiry, this`queued, this`armed
      ensures Loop() == Renew(timeout, old(Loop()))
    {
      expiry := At(now + timeout);
      queued, armed := queued + armed, 0;
    }

    method StartOperation(steps: nat)
      modifies this`op, this`ec
      ensures Loop() == EventLoop.StartOperation(old(Loop()), steps)
    {
      ec := WouldBlock;
      op := if open then InFlight(steps) else DoneReady(Err);
    }

    /** Renews the deadline and starts an operation. */
    method Start(kind: Kind, steps: nat, opens: bool)
      requires Valid() && !Loop().Looping() && WireEnabled(View(), Begin(kind, steps, opens))
      modifies this
      ensures Valid() && trace == old(trace) + [Begin(kind, steps, opens)]
      ensures View() == WApply(timeout, old(View()), Begin(kind, steps, opens))
    {
      ghost var w := View();
      wire := WireApply(View(), Begin(kind, steps, opens));
      RenewDeadline();
      if kind == Connecting {
        open := opens;
      }
      StartOperation(steps);
      Record(w, Begin(kind, steps, opens));
    }

    /** One call: start the operation, run the loop, look at the code and the socket. */
    method Call(kind: Kind, steps: nat, opens: bool) returns (ok: bool, ghost run: seq<Action>)
      requires Valid() && !Loop().Looping() && WireEnabled(View(), Begin(kind, steps, opens))
      modifies this
      ensures Valid() && !Loop().Looping() && op == Idle && ok == Loop().Verdict()
      ensures var begin := Begin(kind, steps, opens);
              var w := WApply(timeout, old(View()), begin);
              && trace == old(trace) + ([begin] + run)
              && LoopRun(timeout, w, run, prompt) && View() == WExec(timeout, w, run)
              && (ok <==> w.loop.open && Finish(Ok) in run && Closings(timeout, w.loop, run) == 0)
              && Count(run, RunWait) <= 2 && Count(run, RunOperation) <= steps + 1
              && (w.loop.open && now < old(now) + timeout ==> open)
      ensures prompt ==> now <= old(now) + timeout
    {
      ghost var begin := Begin(kind, steps, opens);
      ghost var before := View();
      Start(kind, steps, opens);
      ghost var w := View();
      run := RunLoop();
      var isOpen := CheckSocket();
      ok := !(ec == Failed || !isOpen);
      assert trace == old(trace) + ([begin] + run);
      LoopOfWorld(timeout, w, run);
      assert ([begin] + run)[1..] == run;
      VerdictExactly(timeout, before.loop, kind, steps, opens, run);
      LoopIsBounded(timeout, before.loop, kind, steps, opens, run);
      NoEarlyTimeout(timeout, before.loop, kind, steps, opens, run);
      if prompt {
        CallReturnsInTime(timeout, before.loop, kind, steps, opens, run);
      }
    }

    /** A call, with what it means for the connection. */
    method Phase(kind: Kind, steps: nat, opens: bool) returns (ok: bool, ghost run: seq<Action>)
      requires Valid() && !Loop().Looping() && WireEnabled(View(), Begin(kind, steps, opens))
      modifies this
      ensures Valid() && !Loop().Looping() && op == Idle && ok == Loop().Verdict()
      ensures Completed(timeout, old(View()), Begin(kind, steps, opens), run)
      ensures View() == After(timeout, old(View()), Begin(kind, steps, opens), run)
      ensures trace == old(trace) + ([Begin(kind, steps, opens)] + run)
      ensures ok <==> Finish(Ok) in run && open
      ensures open ==> if kind == Connecting then opens else old(open)
      ensures (if kind == Connecting then opens else old(open)) && now < old(now) + timeout ==> open
      ensures wire.kind == kind && wire.log == old(wire.log) && ReadGot(View())
      ensures wire.next == old(wire.next) + if kind == Writing then 1 else 0
      ensures old(Orderly()) && (kind == Writing ==> old(Quiet())) ==> Orderly()
      ensures old(WInv(View())) && (kind == Writing ==> old(Outstanding(wire)) == []) ==>
                && WInv(View())
                && (old(NoJunk(View())) && WellFormed(run) ==> NoJunk(View()))
      ensures prompt ==> now <= old(now) + timeout
    {
      ghost var before := View();
      ghost var begin := Begin(kind, steps, opens);
      ok, run := Call(kind, steps, opens);
      ghost var w := WApply(timeout, before, begin);
      LoopKeepsKind(timeout, w, run);
      LoopReads(timeout, w, run);
      LoopOpen(timeout, w, run);
      CompletedRun(timeout, before, begin, run);
      DisciplineSplit(timeout, Init(start), old(trace), [begin] + run, true, false);
      if WInv(before) && (kind == Writing ==> Outstanding(before.wire) == []) {
        CallKeeps(timeout, before, begin, run);
      }
    }

    /** Between two calls any time may pass, and the timer and the peer may act. */
    method BeIdle() returns (ghost run: seq<Action>)
      requires Valid() && !Loop().Looping()
      modifies this
      ensures Valid() && !Loop().Looping() && open == old(open)
      ensures trace == old(trace) + run && Reaches(timeout, old(View()), run, View())
      ensures old(Quiet()) ==> Quiet()
      ensures old(Orderly()) ==> Orderly()
      ensures old(Clean()) ==> Clean()
      ensures old(Clean() && NoJunk(View())) && WellFormed(run) ==> NoJunk(View())
    {
      var acts: seq<Action> := *;
      if !(WValid(timeout, View(), acts) && forall a :: a in acts ==> Environment(a)) {
        acts := [];
      }
      IdleKeeps(timeout, View(), acts);
      Happen(acts);
      run := acts;
    }

    /** Connects, in two phases with TLS.  `calls` lists the calls of the error handler. */
    method Connect(input: ConnectInput)
      returns (ok: bool, calls: seq<ErrorCode>, ghost first: seq<Action>, ghost second: seq<Action>, ghost run: seq<Action>)
      requires Valid() && !Loop().Looping()
      modifies this
      ensures Valid() && !Loop().Looping() && op == Idle
      ensures trace == old(trace) + run && Reaches(timeout, old(View()), run, View())
      ensures Connects(timeout, old(View()), useSsl, input, first, second, run, calls) && (ok <==> calls == [])
      ensures ok <==> Finish(Ok) in first && (useSsl ==> Finish(Ok) in second) && open
      ensures calls == [NOT_FOUND] <==> input.resolution == NoAddress
      ensures calls == [FAIL]
         <==> || input.resolution == ResolverThrows
              || (input.resolution == Resolved && (
                    || input.connectThrows || (useSsl && !input.serverNameSet)
                    || (useSsl && input.handshakeThrows && Finish(Ok) in first && open)))
      ensures calls == [TIMEOUT]
         <==> && input.resolution == Resolved && !input.connectThrows && (useSsl ==> input.serverNameSet)
              && (|| !(Finish(Ok) in first && open)
                  || (useSsl && !input.handshakeThrows && Finish(Ok) !in second))
      ensures ok ==> input.opens && Loop().Verdict() && wire.kind == if useSsl then Handshaking else Connecting
      ensures old(Quiet()) || (input.resolution == Resolved && !input.GivesUp(useSsl)) ==> Quiet()
      ensures old(Orderly()) ==> Orderly()
      ensures Keeps(old(View()), run, View())
      ensures old(WInv(View())) && input.resolution == Resolved && !input.GivesUp(useSsl) ==> Clean()
      ensures prompt ==> now <= old(now) + (if useSsl then 2 else 1) * timeout
    {
      if input.resolution == Resolved {
        calls, first, second, run := ConnectPhases(input);
      } else {
        calls, first, second, run := [if input.resolution == NoAddress then NOT_FOUND else FAIL], [], [], [];
      }
      ok := calls == [];
      ConnectReaches(timeout, old(View()), useSsl, input, first, second, run, calls);
    }

    /** The part of connect that runs once the host name is resolved. */
    method ConnectPhases(input: ConnectInput)
      returns (calls: seq<ErrorCode>, ghost first: seq<Action>, ghost second: seq<Action>, ghost run: seq<Action>)
      requires Valid() && !Loop().Looping() && input.resolution == Resolved
      modifies this
      ensures Valid() && !Loop().Looping() && op == Idle
      ensures trace == old(trace) + run
      ensures Connects(timeout, old(View()), useSsl, input, first, second, run, calls)
      ensures View() == ConnectEnd(timeout, old(View()), useSsl, input, first, second, run, calls)
      ensures calls == [] <==> Finish(Ok) in first && (useSsl ==> Finish(Ok) in second) && open
      ensures calls == [FAIL]
         <==> || input.connectThrows || (useSsl && !input.serverNameSet)
              || (useSsl && input.handshakeThrows && Finish(Ok) in first && open)
      ensures calls in {[], [FAIL], [TIMEOUT]} && (input.GivesUp(useSsl) ==> first == [])
      ensures second != [] ==> Finish(Ok) in first
      ensures calls == [] ==> input.opens && Loop().Verdict() && wire.kind == if useSsl then Handshaking else Connecting
      ensures old(Quiet()) || !input.GivesUp(useSsl) ==> Quiet()
      ensures old(Orderly()) ==> Orderly()
      ensures Keeps(old(View()), run, View())
      ensures old(WInv(View())) && !input.GivesUp(useSsl) ==> Clean()
      ensures prompt ==> now <= old(now) + (if useSsl then 2 else 1) * timeout
    {
      second := [];
      calls, first, run := Attempt(Connecting, input.GivesUp(useSsl), input.steps, input.opens);
      if useSsl && calls == [] {
        ghost var v, connected, shaken := View(), run, [];
        calls, second, shaken := Attempt(Handshaking, input.handshakeThrows, input.handshakeSteps, true);
        KeepsOn(old(View()), connected, v, shaken, View());
        run := connected + shaken;
      }
    }

    /** One phase of connecting. */
    method Attempt(kind: Kind, throws: bool, steps: nat, opens: bool)
      returns (calls: seq<ErrorCode>, ghost part: seq<Action>, ghost run: seq<Action>)
      requires Valid() && !Loop().Looping() && WireEnabled(View(), Begin(kind, steps, opens))
      requires kind == Connecting || kind == Handshaking
      modifies this
      ensures Valid() && !Loop().Looping() && op == Idle
      ensures trace == old(trace) + run
      ensures Attempted(timeout, old(View()), Begin(kind, steps, opens), throws, part)
      ensures View() == AfterAttempt(timeout, old(View()), Begin(kind, steps, opens), throws, part)
      ensures calls == AttemptCalls(timeout, old(View()), Begin(kind, steps, opens), throws, part)
      ensures run == AttemptRun(Begin(kind, steps, opens), throws, part)
      ensures calls == [] <==> Finish(Ok) in part && open
      ensures calls == if throws then [FAIL] else if Finish(Ok) in part && open then [] else [TIMEOUT]
      ensures throws ==> open == old(open)
      ensures calls == [] ==> Loop().Verdict() && wire.kind == kind && if kind == Connecting then opens else old(open)
      ensures old(Quiet()) || !throws ==> Quiet()
      ensures old(Orderly()) ==> Orderly()
      ensures Keeps(old(View()), run, View())
      ensures old(WInv(View())) && !throws ==> Clean()
      ensures prompt ==> now <= old(now) + timeout
    {
      if throws {
        RenewAndGiveUp();
        return [FAIL], [], [RenewOnly];
      }
      var ok;
      ghost var w := View();
      ok, part := Phase(kind, steps, opens);
      run := [Begin(kind, steps, opens)] + part;
      CompletedRun(timeout, w, Begin(kind, steps, opens), part);
      calls := if ok then [] else [TIMEOUT];
    }

    /** The deadline is renewed, and then the call ends without an operation. */
    method RenewAndGiveUp()
      requires Valid() && !Loop().Looping()
      modifies this
      ensures Valid() && trace == old(trace) + [RenewOnly] && Reaches(timeout, old(View()), [RenewOnly], View())
      ensures WEnabled(old(View()), RenewOnly) && View() == WApply(timeout, old(View()), RenewOnly)
      ensures old(Orderly()) ==> Orderly()
      ensures old(WInv(View())) ==> WInv(View())
    {
      ghost var w := View();
      if WInv(w) {
        OtherStep(timeout, w, RenewOnly);
      }
      RenewDeadline();
      Record(w, RenewOnly);
      assert [RenewOnly][1..] == [];
    }

    /** Writes a request. */
    method Write(steps: nat) returns (ok: bool, calls: seq<ErrorCode>, ghost run: seq<Action>)
      requires Valid() && !Loop().Looping()
      modifies this
      ensures Valid() && !Loop().Looping() && op == Idle && ok == Loop().Verdict() && wire.kind == Writing
      ensures calls == if ok then [] else [TIMEOUT]
      ensures Completed(timeout, old(View()), Begin(Writing, steps, true), run)
      ensures View() == After(timeout, old(View()), Begin(Writing, steps, true), run)
      ensures trace == old(trace) + ([Begin(Writing, steps, true)] + run)
      ensures ok <==> Finish(Ok) in run && open
      ensures !old(open) ==> !open
      ensures old(open) && now < old(now) + timeout ==> open
      ensures wire.next == old(wire.next) + 1 && wire.log == old(wire.log)
      ensures old(Orderly() && Quiet()) ==> Orderly()
      ensures old(Clean()) ==> WInv(View()) && (!ok ==> Clean())
      ensures old(Clean() && NoJunk(View())) && WellFormed(run) ==> NoJunk(View())
      ensures prompt ==> now <= old(now) + timeout
    {
      ok, run := Phase(Writing, steps, true);
      calls := if ok then [] else [TIMEOUT];
    }

    /** Reads a response into `wire.got`. */
    method Read(steps: nat) returns (ok: bool, calls: seq<ErrorCode>, ghost run: seq<Action>)
      requires Valid() && !Loop().Looping()
      modifies this
      ensures Valid() && Quiet() && op == Idle && ok == Loop().Verdict() && wire.kind == Reading
      ensures calls == if ok then [] else [TIMEOUT]
      ensures Completed(timeout, old(View()), Begin(Reading, steps, true), run)
      ensures View() == After(timeout, old(View()), Begin(Reading, steps, true), run)
      ensures trace == old(trace) + ([Begin(Reading, steps, true)] + run)
      ensures ok <==> Finish(Ok) in run && open
      ensures !old(open) ==> !open
      ensures old(open) && now < old(now) + timeout ==> open
      ensures ok ==> wire.got.Some? && wire.got.value.Response?
      ensures wire.next == old(wire.next) && wire.log == old(wire.log)
      ensures old(Orderly()) ==> Orderly()
      ensures old(WInv(View())) ==>
                WInv(View()) && (ok ==> Clean() && wire.next > 0 && wire.got.value.call == wire.next - 1)
      ensures old(WInv(View()) && NoJunk(View())) && WellFormed(run) ==> NoJunk(View()) && Clean()
      ensures prompt ==> now <= old(now) + timeout
    {
      ok, run := Phase(Reading, steps, true);
      calls := if ok then [] else [TIMEOUT];
    }

    /** Writes a request and reads its response. */
    method Transact(writeSteps: nat, readSteps: nat)
      returns (exchange: Exchange, errors: seq<ErrorCode>, ghost wrote: seq<Action>, ghost read: seq<Action>)
      requires Valid() && !Loop().Looping()
      modifies this
      ensures Valid() && Quiet() && op == Idle
      ensures Exchanged(timeout, old(View()), writeSteps, readSteps, exchange, wrote, read)
      ensures trace == old(trace) + ExchangeRun(writeSteps, readSteps, exchange, wrote, read)
      ensures View() == ExchangeEnd(timeout, old(View()), writeSteps, readSteps, exchange, wrote, read)
      ensures wire.log == old(wire.log) && wire.next == old(wire.next) + 1
      ensures exchange.Replied? <==> Finish(Ok) in wrote && Finish(Ok) in read && open
      ensures exchange.Replied? ==>
                && WireEnabled(View(), Deliver)
                && wire.got.Some? && wire.got.value.Response? && wire.got.value.reply == exchange.reply
      ensures errors == if exchange.Replied? then [] else [TIMEOUT]
      ensures !old(open) ==> !open && exchange == WriteFails
      ensures old(Orderly() && Quiet()) ==> Orderly()
      ensures old(Clean()) ==>
                && WInv(View()) && (exchange != ReadFails ==> Clean())
                && (exchange.Replied? ==> wire.got.value.call == old(wire.next))
      ensures old(Clean() && NoJunk(View())) && WellFormed(wrote) && WellFormed(read) ==> Clean() && NoJunk(View())
      ensures prompt ==> now <= old(now) + 2 * timeout
    {
      var ok;
      ok, errors, wrote := Write(writeSteps);
      exchange, read := WriteFails, [];
      if ok {
        ok, errors, read := Read(readSteps);
        exchange := if ok then Replied(wire.got.value.reply) else ReadFails;
      }
    }

    /** One JSON-RPC request: `bodyDumps` says whether the body can be written out as text.
      * `exchange` is how the exchange went, `calls` the calls of the two handlers. */
    method Request(bodyDumps: bool, writeSteps: nat, readSteps: nat)
      returns (value: Option<Item>, calls: seq<HandlerCall>, exchange: Exchange,
               ghost wrote: seq<Action>, ghost read: seq<Action>, ghost run: seq<Action>)
      requires Valid() && !Loop().Looping()
      modifies this
      ensures Valid() && !Loop().Looping() && op == Idle && (old(Quiet()) || bodyDumps ==> Quiet())
      ensures match Settle(exchange)
        case GotValue => calls == [] && value.Some? && value.value.Response? && exchange == Replied(value.value.reply)
        case ResponseHandler => value == None && exchange.Replied? && calls == [OnResponse(exchange.reply)]
        case ErrorHandler(code) => value == None && calls == [OnError(code)]
      ensures value.Some?
         <==> exchange.Replied? && exchange.reply.statusOk && exchange.reply.parses && exchange.reply.hasResult
      ensures value.Some? ==> calls == [] && value.value.Response? && value.value.reply == exchange.reply
      ensures value == None ==> |calls| == 1
      ensures (exists reply :: calls == [OnResponse(reply)])
         <==> exchange.Replied? && (!exchange.reply.statusOk || (exchange.reply.parses && !exchange.reply.hasResult))
      ensures forall reply :: calls == [OnResponse(reply)] ==> exchange == Replied(reply)
      ensures calls == [OnError(TIMEOUT)] <==> exchange == WriteFails || exchange == ReadFails
      ensures calls == [OnError(FAIL)] <==> !bodyDumps || (exchange.Replied? && exchange.reply.statusOk && !exchange.reply.parses)
      ensures if bodyDumps then
                && Exchanged(timeout, old(View()), writeSteps, readSteps, exchange, wrote, read)
                && run == ExchangeRun(writeSteps, readSteps, exchange, wrote, read) + (if value.Some? then [Deliver] else [])
                && (exchange.Replied? <==> Finish(Ok) in wrote && Finish(Ok) in read && open)
                && (!old(open) ==> exchange == WriteFails)
                && (exchange == WriteFails <==> Begin(Reading, readSteps, true) !in run)
              else
                exchange == BodyThrows && run == []
      ensures trace == old(trace) + run && Reaches(timeout, old(View()), run, View())
      ensures forall a :: a in run ==> !Reconnects(a)
      ensures !old(open) ==> !open
      ensures wire.log == old(wire.log) + if value.Some? then [(old(wire.next), value.value)] else []
      ensures old(Orderly() && Quiet()) ==> Orderly()
      ensures old(Clean()) ==>
                && WInv(View())
                && (value.Some? ==> value.value.call == old(wire.next))
                && (exchange != ReadFails ==> Clean())
      ensures old(Clean() && NoJunk(View())) && WellFormed(run) ==> Clean() && NoJunk(View())
      ensures prompt ==> now <= old(now) + 2 * timeout
    {
      if !bodyDumps {
        return None, [OnError(FAIL)], BodyThrows, [], [], [];
      }
      ghost var rest;
      value, calls, exchange, wrote, read, rest := RoundTrip(writeSteps, readSteps);
      run := ExchangeRun(writeSteps, readSteps, exchange, wrote, read) + rest;
      SettlesExactly(exchange);
      ReadBegins(timeout, old(View()), writeSteps, readSteps, exchange, wrote, read, rest);
    }

    /** The part of a request that runs once its body is written out as text. */
    method RoundTrip(writeSteps: nat, readSteps: nat)
      returns (value: Option<Item>, calls: seq<HandlerCall>, exchange: Exchange,
               ghost wrote: seq<Action>, ghost read: seq<Action>, ghost rest: seq<Action>)
      requires Valid() && !Loop().Looping()
      modifies this
      ensures Valid() && Quiet() && op == Idle
      ensures match Settle(exchange)
        case GotValue => calls == [] && value.Some? && value.value.Response? && exchange == Replied(value.value.reply)
        case ResponseHandler => value == None && exchange.Replied? && calls == [OnResponse(exchange.reply)]
        case ErrorHandler(code) => value == None && calls == [OnError(code)]
      ensures exchange != BodyThrows && rest == if value.Some? then [Deliver] else []
      ensures Exchanged(timeout, old(View()), writeSteps, readSteps, exchange, wrote, read)
      ensures exchange.Replied? <==> Finish(Ok) in wrote && Finish(Ok) in read && open
      ensures !old(open) ==> !open && exchange == WriteFails
      ensures var run := ExchangeRun(writeSteps, readSteps, exchange, wrote, read) + rest;
              && trace == old(trace) + run && Reaches(timeout, old(View()), run, View())
              && (WellFormed(run) <==> WellFormed(wrote) && WellFormed(read))
              && forall a :: a in run ==> !Reconnects(a)
      ensures wire.log == old(wire.log) + if value.Some? then [(old(wire.next), value.value)] else []
      ensures old(Orderly() && Quiet()) ==> Orderly()
      ensures old(Clean()) ==>
                && WInv(View())
                && (value.Some? ==> value.value.call == old(wire.next))
                && (exchange != ReadFails ==> Clean())
      ensures old(Clean() && NoJunk(View())) && WellFormed(wrote) && WellFormed(read) ==> Clean() && NoJunk(View())
      ensures prompt ==> now <= old(now) + 2 * timeout
    {
      var errors;
      exchange, errors, wrote, read := Transact(writeSteps, readSteps);
      value, rest := None, [];
      if exchange.Replied? {
        assert old(Clean()) ==> Clean();
        value, calls, rest := Conclude(exchange.reply);
      } else {
        calls := [OnError(errors[0])];
      }
      RequestReaches(timeout, old(View()), writeSteps, readSteps, exchange, wrote, read, rest, View());
    }

    /** What a request makes of its response. */
    method Conclude(reply: Reply) returns (value: Option<Item>, calls: seq<HandlerCall>, ghost run: seq<Action>)
      requires Valid() && !Loop().Looping() && WireEnabled(View(), Deliver) && wire.next > 0
      requires wire.got.Some? && wire.got.value.Response? && wire.got.value.reply == reply
      modifies this
      ensures Valid() && Loop() == old(Loop()) && wire.kind == old(wire.kind)
      ensures value.Some? <==> reply.statusOk && reply.parses && reply.hasResult
      ensures match Settle(Replied(reply))
        case GotValue => calls == [] && value == old(wire.got)
        case ResponseHandler => value == None && calls == [OnResponse(reply)]
        case ErrorHandler(code) => value == None && calls == [OnError(code)]
      ensures run == if value.Some? then [Deliver] else []
      ensures trace == old(trace) + run && Reaches(timeout, old(View()), run, View())
      ensures wire.log == old(wire.log) + if value.Some? then [(old(wire.next) - 1, value.value)] else []
      ensures old(Orderly()) ==> Orderly()
      ensures old(Clean()) ==> Clean()
      ensures old(NoJunk(View())) ==> NoJunk(View())
    {
      value, calls, run := None, [], [];
      if reply.statusOk {
        if !reply.parses {
          calls := [OnError(FAIL)];
          return;
        }
        if reply.hasResult {
          value, run := wire.got, [Deliver];
          DeliverValue();
          return;
        }
      }
      calls := [OnResponse(reply)];
    }

    /** The value that was read leaves the request. */
    method DeliverValue()
      requires Valid() && !Loop().Looping() && WireEnabled(View(), Deliver)
      modifies this
      ensures Valid() && trace == old(trace) + [Deliver]
      ensures Reaches(timeout, old(View()), [Deliver], View())
      ensures old(Orderly()) ==> Orderly()
      ensures Loop() == old(Loop()) && wire == WireApply(old(View()), Deliver)
      ensures old(Clean()) ==> Clean()
      ensures old(NoJunk(View())) ==> NoJunk(View())
    {
      ghost var w := View();
      if WInv(w) {
        WInvStep(timeout, w, Deliver);
      }
      wire := WireApply(View(), Deliver);
      Record(w, Deliver);
      assert [Deliver][1..] == [];
    }
  }

  /** Main result, for the objects: whatever methods have been called, in any order and with any
    * outcome, every value that requests of a session have returned answers the call that returned
    * it, provided that the peer has sent nothing but answers and every write was read. */
  lemma ValuesAnswerTheirCalls(s: Session)
    requires s.Valid() && s.Orderly() && WellFormed(s.trace)
    ensures Matching(s.wire.log)
  {
    EveryValueAnswersItsCall(s.timeout, s.start, s.trace);
  }

  lemma WellFormedJoin(a: seq<Action>, b: seq<Action>)
    ensures WellFormed(a + b) <==> WellFormed(a) && WellFormed(b)
  {
    assert forall x :: x in a || x in b <==> x in a + b;
  }

  lemma {:induction false} LoopKeepsKind(timeout: nat, w: World, run: seq<Action>)
    requires WValid(timeout, w, run) && InsideLoop(run)
    ensures WExec(timeout, w, run).wire.kind == w.wire.kind
    ensures WExec(timeout, w, run).wire.next == w.wire.next
    ensures WExec(timeout, w, run).wire.log == w.wire.log
    decreases |run|
  {
    if run != [] {
      assert run[0] in run && forall a :: a in run[1..] ==> a in run;
      LoopKeepsKind(timeout, WApply(timeout, w, run[0]), run[1..]);
    }
  }

  /** A socket that is open at the end of a loop has not been closed in it. */
  lemma {:induction false} LoopOpen(timeout: nat, w: World, run: seq<Action>)
    requires WValid(timeout, w, run) && InsideLoop(run)
    ensures ValidRun(timeout, w.loop, run)
    ensures WExec(timeout, w, run).loop.open <==> w.loop.open && Closings(timeout, w.loop, run) == 0
    decreases |run|
  {
    if run != [] {
      assert run[0] in run && forall a :: a in run[1..] ==> a in run;
      LoopOpen(timeout, WApply(timeout, w, run[0]), run[1..]);
    }
  }
}
