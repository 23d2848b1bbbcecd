/** The session's connection: requests and responses in flight, on top of the handler queue.
  *
  * The client never compares the id of a response with the id of its request.  This module shows
  * when the response it takes is the right one all the same. */
module Connection {
  import opened Wrappers
  import opened Messages
  import opened EventLoop

  /** `asked` are the calls whose requests the server has yet to answer, `unread` the messages the
    * client has yet to read, oldest first; `got` is the message of the read that has just ended.
    * Calls are numbered from 0; `next` is the number of the next one.  `log` lists the values that
    * requests have returned, each with the call that returned it. */
  datatype Wire = Wire(
    next: nat,
    kind: Kind,
    alive: bool,
    asked: seq<nat>,
    unread: seq<Item>,
    got: Option<Item>,
    log: seq<(nat, Item)>)
  {
    /** A broken or closed connection loses everything that was on it. */
    function Dead(): Wire {
      this.(alive := false, asked := [], unread := [])
    }
  }

  datatype World = World(loop: State, wire: Wire)

  function Init(start: int): World {
    World(Constructed(start), Wire(0, Connecting, false, [], [], None, []))
  }

  /** A write has succeeded, and nothing has been read since: a request goes on to the read here. */
  predicate MustRead(w: World) {
    w.wire.kind == Writing && w.loop.Verdict()
  }

  predicate WireEnabled(w: World, a: Action) {
    var c := w.wire;
    match a
    case Begin(kind, _, _) =>
      kind == Handshaking ==> c.kind == Connecting && w.loop.Verdict()
    case Deliver => c.kind == Reading && w.loop.Verdict() && c.got.Some? && c.got.value.Response?
    case Finish(Ok) =>
      (match c.kind
       case Writing => c.alive
       case Reading => c.alive && c.unread != [] && c.unread[0].Response?
       case _ => true)
    case Peer(Answer(i, _)) => c.alive && i < |c.asked|
    case Peer(Oversized(i, _)) => c.alive && i < |c.asked|
    case Peer(Junk) => c.alive
    case Peer(Swallow) => w.loop.op.InFlight? && c.kind == Reading && |c.unread| >= 2
    case _ => true
  }

  predicate WEnabled(w: World, a: Action) {
    Enabled(w.loop, a) && WireEnabled(w, a)
  }

  function Without(asked: seq<nat>, i: nat): seq<nat>
    requires i < |asked|
  {
    asked[..i] + asked[i + 1..]
  }

  /** `n` pieces, each of which makes a read fail. */
  function Pieces(n: nat): seq<Item> {
    if n == 0 then [] else [Garbage] + Pieces(n - 1)
  }

  function WireApply(w: World, a: Action): Wire
    requires WEnabled(w, a)
  {
    var c := w.wire;
    match a
    case Begin(kind, _, _) =>
      (match kind
       case Connecting => c.Dead().(kind := Connecting, got := None)
       case Handshaking => c.(kind := Handshaking)
       case Writing => c.(kind := Writing, next := c.next + 1, got := None)
       case Reading => c.(kind := Reading, got := None))
    case Finish(Ok) =>
      (match c.kind
       case Connecting => c.(alive := true)
       case Handshaking => c
       case Writing => if c.next > 0 then c.(asked := c.asked + [c.next - 1]) else c
       case Reading => c.(got := Some(c.unread[0]), unread := c.unread[1..]))
    case Finish(Err) =>
      if c.kind == Reading && c.unread != [] && c.unread[0].Garbage? then c.(unread := c.unread[1..]) else c.Dead()
    case RunWait => if w.loop.Expired() then c.Dead() else c
    case Peer(Answer(i, r)) => c.(unread := c.unread + [Response(c.asked[i], r)], asked := Without(c.asked, i))
    case Peer(Oversized(i, n)) => c.(unread := c.unread + Pieces(n + 1), asked := Without(c.asked, i))
    case Peer(Junk) => c.(unread := c.unread + [Garbage])
    case Peer(Drop) => c.Dead()
    case Peer(Swallow) => c.(unread := [c.unread[0]] + c.unread[2..])
    case Deliver => if c.next > 0 then c.(log := c.log + [(c.next - 1, c.got.value)], got := None) else c
    case _ => c
  }

  function WApply(timeout: nat, w: World, a: Action): World
    requires WEnabled(w, a)
  {
    World(Apply(timeout, w.loop, a), WireApply(w, a))
  }

  predicate WValid(timeout: nat, w: World, run: seq<Action>)
    decreases |run|
  {
    run == [] || (WEnabled(w, run[0]) && WValid(timeout, WApply(timeout, w, run[0]), run[1..]))
  }

  function WExec(timeout: nat, w: World, run: seq<Action>): World
    requires WValid(timeout, w, run)
    decreases |run|
  {
    if run == [] then w else WExec(timeout, WApply(timeout, w, run[0]), run[1..])
  }

  /** The run leads from one state to the other. */
  ghost predicate Reaches(timeout: nat, w: World, run: seq<Action>, v: World) {
    WValid(timeout, w, run) && WExec(timeout, w, run) == v
  }

  lemma {:induction false} WSplit(timeout: nat, w: World, a: seq<Action>, b: seq<Action>)
    requires WValid(timeout, w, a)
    ensures WValid(timeout, w, a + b) <==> WValid(timeout, WExec(timeout, w, a), b)
    ensures WValid(timeout, w, a + b) ==> WExec(timeout, w, a + b) == WExec(timeout, WExec(timeout, w, a), b)
    decreases |a|
  {
    if a == [] {
      assert a + b == b;
    } else {
      assert (a + b)[1..] == a[1..] + b;
      WSplit(timeout, WApply(timeout, w, a[0]), a[1..], b);
    }
  }

  /** Every run of the connection is a run of the handler queue. */
  lemma {:induction false} LoopOfWorld(timeout: nat, w: World, run: seq<Action>)
    requires WValid(timeout, w, run)
    ensures ValidRun(timeout, w.loop, run)
    ensures WExec(timeout, w, run).loop == Exec(timeout, w.loop, run)
    decreases |run|
  {
    if run != [] {
      LoopOfWorld(timeout, WApply(timeout, w, run[0]), run[1..]);
    }
  }

  // ---------- the invariant ----------

  function CallOf(x: Item): seq<nat> {
    if x.Response? then [x.call] else []
  }

  function CallsOf(items: seq<Item>): seq<nat> {
    if items == [] then [] else CallOf(items[0]) + CallsOf(items[1..])
  }

  /** The calls whose answers may still come, oldest first. */
  function Outstanding(c: Wire): seq<nat> {
    CallsOf(c.unread) + c.asked
  }

  lemma {:induction false} CallsOfConcat(a: seq<Item>, b: seq<Item>)
    ensures CallsOf(a + b) == CallsOf(a) + CallsOf(b)
    decreases |a|
  {
    if a == [] {
      assert a + b == b;
    } else {
      assert (a + b)[1..] == a[1..] + b;
      CallsOfConcat(a[1..], b);
      assert CallsOf(a + b) == CallOf(a[0]) + (CallsOf(a[1..]) + CallsOf(b));
    }
  }

  lemma {:induction false} PiecesAreGarbage(n: nat)
    ensures CallsOf(Pieces(n)) == []
    ensures forall x :: x in Pieces(n) ==> x == Garbage
  {
    if n > 0 {
      PiecesAreGarbage(n - 1);
      assert Pieces(n)[0] == Garbage && Pieces(n)[1..] == Pieces(n - 1);
    }
  }

  lemma CallsOfOne(x: Item)
    ensures CallsOf([x]) == CallOf(x)
  {
    assert [x][1..] == [];
  }

  /** Every value was returned by the call that asked for it. */
  ghost predicate Matching(log: seq<(nat, Item)>) {
    forall i :: 0 <= i < |log| ==> log[i].1.Response? && log[i].1.call == log[i].0
  }

  /** At most the answer to the current call is still to come. */
  predicate OnlyCurrent(c: Wire) {
    Outstanding(c) == [] || (c.next > 0 && Outstanding(c) == [c.next - 1])
  }

  /** The operation has completed, or is about to, with this result. */
  predicate Came(s: State, r: Result) {
    match s.op
    case DoneReady(r') => r == r'
    case Idle => s.ec == if r == Ok then Success else Failed
    case _ => false
  }

  ghost predicate WInv(w: World) {
    var c := w.wire;
    && Inv(w.loop)
    && (c.alive ==> w.loop.open)
    && (!c.alive ==> c.asked == [] && c.unread == [])
    && Matching(c.log)
    && match c.kind
       case Writing =>
         && c.next > 0 && c.got == None
         && (if Came(w.loop, Ok) then OnlyCurrent(c) else Outstanding(c) == [])
       case Reading =>
         && (c.got.Some? ==>
               && Came(w.loop, Ok) && c.got.value.Response?
               && c.next > 0 && c.got.value.call == c.next - 1)
         && (if Came(w.loop, Ok) then Outstanding(c) == [] else OnlyCurrent(c))
       case _ => Outstanding(c) == [] && c.got == None
  }

  // ---------- every step keeps it ----------

  /** When the server answers, only the current request can wait for an answer. */
  lemma OnlyOneAsked(w: World, i: nat)
    requires WInv(w) && i < |w.wire.asked|
    ensures i == 0 && w.wire.next > 0 && w.wire.asked == [w.wire.next - 1] && CallsOf(w.wire.unread) == []
    ensures OnlyCurrent(w.wire)
    ensures w.wire.kind == Writing ==> Came(w.loop, Ok)
    ensures w.wire.kind == Reading ==> !Came(w.loop, Ok)
    ensures w.wire.kind == Writing || w.wire.kind == Reading
  {
    assert Outstanding(w.wire)[|CallsOf(w.wire.unread)| + i] == w.wire.asked[i];
  }

  lemma AnswerStep(timeout: nat, w: World, i: nat, r: Reply)
    requires WInv(w) && WEnabled(w, Peer(Answer(i, r)))
    ensures WInv(WApply(timeout, w, Peer(Answer(i, r))))
  {
    var c := w.wire;
    var x := Response(c.asked[i], r);
    OnlyOneAsked(w, i);
    CallsOfConcat(c.unread, [x]);
    CallsOfOne(x);
    assert Outstanding(WireApply(w, Peer(Answer(i, r)))) == Outstanding(c);
  }

  lemma OversizedStep(timeout: nat, w: World, i: nat, n: nat)
    requires WInv(w) && WEnabled(w, Peer(Oversized(i, n)))
    ensures WInv(WApply(timeout, w, Peer(Oversized(i, n))))
  {
    var c := w.wire;
    OnlyOneAsked(w, i);
    CallsOfConcat(c.unread, Pieces(n + 1));
    PiecesAreGarbage(n + 1);
    assert Outstanding(WireApply(w, Peer(Oversized(i, n)))) == [];
  }

  lemma JunkStep(timeout: nat, w: World)
    requires WInv(w) && WEnabled(w, Peer(Junk))
    ensures WInv(WApply(timeout, w, Peer(Junk)))
  {
    var c := w.wire;
    CallsOfConcat(c.unread, [Garbage]);
    CallsOfOne(Garbage);
    assert Outstanding(WApply(timeout, w, Peer(Junk)).wire) == Outstanding(c);
  }

  lemma CallsOfSwallowed(x: Item, y: Item, rest: seq<Item>)
    ensures CallsOf([x] + ([y] + rest)) == CallOf(x) + (CallOf(y) + CallsOf(rest))
    ensures CallsOf([x] + rest) == CallOf(x) + CallsOf(rest)
  {
    CallsOfConcat([x], [y] + rest);
    CallsOfConcat([y], rest);
    CallsOfConcat([x], rest);
    CallsOfOne(x);
    CallsOfOne(y);
  }

  /** Of at most one call, nothing or all is left. */
  lemma LeftOfOne(a: seq<nat>, b: seq<nat>, r: seq<nat>, k: seq<nat>)
    requires |(a + (b + r)) + k| <= 1
    ensures (a + r) + k == [] || (a + r) + k == (a + (b + r)) + k
  {
    if b == [] {
      assert b + r == r;
    }
  }

  /** What is left of the outstanding calls, when a further message is dropped. */
  lemma SwallowLeaves(c: Wire)
    requires |c.unread| >= 2 && OnlyCurrent(c)
    ensures OnlyCurrent(c.(unread := [c.unread[0]] + c.unread[2..]))
  {
    var x, y, rest := c.unread[0], c.unread[1], c.unread[2..];
    CallsOfSwallowed(x, y, rest);
    assert CallsOf(c.unread) == CallOf(x) + (CallOf(y) + CallsOf(rest)) by {
      assert c.unread == [x] + ([y] + rest);
    }
    LeftOfOne(CallOf(x), CallOf(y), CallsOf(rest), c.asked);
  }

  lemma SwallowStep(timeout: nat, w: World)
    requires WInv(w) && WEnabled(w, Peer(Swallow))
    ensures WInv(WApply(timeout, w, Peer(Swallow)))
  {
    SwallowLeaves(w.wire);
  }

  /** What is outstanding after the first message has been read. */
  lemma HeadRead(c: Wire)
    requires c.unread != []
    ensures c.unread[0].Garbage? ==> Outstanding(c) == Outstanding(c.(unread := c.unread[1..]))
    ensures c.unread[0].Response? && OnlyCurrent(c) ==>
              c.next > 0 && c.unread[0].call == c.next - 1 && Outstanding(c.(unread := c.unread[1..])) == []
  {
    var later := CallsOf(c.unread[1..]) + c.asked;
    assert Outstanding(c) == CallOf(c.unread[0]) + later;
    if c.unread[0].Response? {
      assert Outstanding(c)[0] == c.unread[0].call && |Outstanding(c)| == 1 + |later|;
    }
  }

  lemma FinishReadStep(timeout: nat, w: World, r: Result)
    requires WInv(w) && WEnabled(w, Finish(r)) && w.wire.kind == Reading
    ensures WInv(WApply(timeout, w, Finish(r)))
  {
    InvStep(timeout, w.loop, Finish(r));
    if w.wire.unread != [] {
      HeadRead(w.wire);
    }
    assert Outstanding(w.wire.Dead()) == [];
  }

  lemma FinishStep(timeout: nat, w: World, r: Result)
    requires WInv(w) && WEnabled(w, Finish(r))
    ensures WInv(WApply(timeout, w, Finish(r)))
  {
    InvStep(timeout, w.loop, Finish(r));
    if w.wire.kind == Reading {
      FinishReadStep(timeout, w, r);
    } else {
      assert Outstanding(w.wire.Dead()) == [];
    }
  }

  lemma BeginStep(timeout: nat, w: World, a: Action)
    requires WInv(w) && WEnabled(w, a) && a.Begin?
    requires a.kind == Writing ==> Outstanding(w.wire) == []
    ensures WInv(WApply(timeout, w, a))
  {
    InvStep(timeout, w.loop, a);
  }

  lemma RunOperationStep(timeout: nat, w: World)
    requires WInv(w) && WEnabled(w, RunOperation)
    ensures WInv(WApply(timeout, w, RunOperation))
  {
    InvStep(timeout, w.loop, RunOperation);
  }

  lemma RunWaitStep(timeout: nat, w: World)
    requires WInv(w) && WEnabled(w, RunWait)
    ensures WInv(WApply(timeout, w, RunWait))
  {
    InvStep(timeout, w.loop, RunWait);
    assert Outstanding(w.wire.Dead()) == [];
  }

  /** A request that starts with nothing outstanding keeps the invariant; so does all else. */
  lemma WInvStep(timeout: nat, w: World, a: Action)
    requires WInv(w) && WEnabled(w, a)
    requires Writes(a) ==> Outstanding(w.wire) == []
    ensures WInv(WApply(timeout, w, a))
  {
    match a
    case Begin(_, _, _) => BeginStep(timeout, w, a);
    case RunOperation => RunOperationStep(timeout, w);
    case RunWait => RunWaitStep(timeout, w);
    case Finish(r) => FinishStep(timeout, w, r);
    case Peer(Answer(i, r)) => AnswerStep(timeout, w, i, r);
    case Peer(Oversized(i, n)) => OversizedStep(timeout, w, i, n);
    case Peer(Junk) => JunkStep(timeout, w);
    case Peer(Swallow) => SwallowStep(timeout, w);
    case _ => OtherStep(timeout, w, a);
  }

  lemma OtherStep(timeout: nat, w: World, a: Action)
    requires WInv(w) && WEnabled(w, a)
    requires a.Tick? || a.Fire? || a.Progress? || a == Peer(Drop) || a.RenewOnly? || a.Deliver?
    ensures WInv(WApply(timeout, w, a))
  {
    InvStep(timeout, w.loop, a);
  }

  // ---------- when every request returns its own answer ----------

  /** The last request's read succeeded, or a connect or a failed write came since. */
  predicate MayRequest(w: World) {
    w.wire.kind == Reading ==> w.loop.Verdict()
  }

  lemma CleanAfterSuccess(w: World)
    requires WInv(w) && !w.loop.Looping() && MayRequest(w) && !MustRead(w)
    ensures Outstanding(w.wire) == []
  {
  }

  predicate Oversizes(a: Action) {
    a.Peer? && a.act.Oversized?
  }

  /** The peer sends nothing but answers, and none that the client refuses for its size. */
  predicate WellFormed(run: seq<Action>) {
    forall a :: a in run ==> a != Peer(Junk) && !Oversizes(a)
  }

  /** Under such a peer, a failed read leaves no live connection behind. */
  ghost predicate NoJunk(w: World) {
    && Garbage !in w.wire.unread
    && (w.wire.kind == Reading && Came(w.loop, Err) ==> !w.wire.alive)
  }

  lemma NoGarbageStep(w: World, a: Action)
    requires Garbage !in w.wire.unread && WEnabled(w, a) && a != Peer(Junk) && !Oversizes(a)
    ensures Garbage !in WireApply(w, a).unread
  {
    if a == Peer(Swallow) {
      assert forall x :: x in [w.wire.unread[0]] + w.wire.unread[2..] ==> x in w.wire.unread;
    }
  }

  /** A read that meets no garbage fails only when the connection breaks. */
  lemma FailedReadStep(timeout: nat, w: World, a: Action)
    requires WInv(w) && NoJunk(w) && WEnabled(w, a)
    ensures var v := WApply(timeout, w, a);
            v.wire.kind == Reading && Came(v.loop, Err) ==> !v.wire.alive
  {
    InvStep(timeout, w.loop, a);
    if a == Finish(Err) && w.wire.kind == Reading && w.wire.unread != [] {
      assert w.wire.unread[0] in w.wire.unread;
    }
  }

  lemma NoJunkStep(timeout: nat, w: World, a: Action)
    requires WInv(w) && NoJunk(w) && WEnabled(w, a) && a != Peer(Junk) && !Oversizes(a)
    ensures NoJunk(WApply(timeout, w, a))
  {
    NoGarbageStep(w, a);
    FailedReadStep(timeout, w, a);
  }

  lemma CleanWithoutJunk(w: World)
    requires WInv(w) && NoJunk(w) && !w.loop.Looping() && !MustRead(w)
    ensures Outstanding(w.wire) == []
  {
  }

  predicate Writes(a: Action) {
    a.Begin? && a.kind == Writing
  }

  /** A write starts only where no earlier write waits for its read, and only after a connect or a
    * failed write if the last read has failed. */
  predicate MayWrite(w: World, pairs: bool, reconnects: bool) {
    (pairs ==> !MustRead(w)) && (reconnects ==> MayRequest(w))
  }

  predicate Disciplined(timeout: nat, w: World, run: seq<Action>, pairs: bool, reconnects: bool)
    requires WValid(timeout, w, run)
    decreases |run|
  {
    run == [] || (
      && (Writes(run[0]) ==> MayWrite(w, pairs, reconnects))
      && Disciplined(timeout, WApply(timeout, w, run[0]), run[1..], pairs, reconnects))
  }

  /** The run is made of requests: each write that succeeds is followed by its read. */
  predicate Requests(timeout: nat, w: World, run: seq<Action>)
    requires WValid(timeout, w, run)
  {
    Disciplined(timeout, w, run, true, false)
  }

  lemma {:induction false} DisciplineSplit(
    timeout: nat, w: World, a: seq<Action>, b: seq<Action>, pairs: bool, reconnects: bool)
    requires WValid(timeout, w, a) && WValid(timeout, w, a + b)
    ensures WValid(timeout, WExec(timeout, w, a), b)
    ensures Disciplined(timeout, w, a + b, pairs, reconnects)
       <==> && Disciplined(timeout, w, a, pairs, reconnects)
            && Disciplined(timeout, WExec(timeout, w, a), b, pairs, reconnects)
    decreases |a|
  {
    WSplit(timeout, w, a, b);
    if a == [] {
      assert a + b == b;
    } else {
      assert (a + b)[1..] == a[1..] + b;
      DisciplineSplit(timeout, WApply(timeout, w, a[0]), a[1..], b, pairs, reconnects);
    }
  }

  lemma {:induction false} WithoutWrites(timeout: nat, w: World, run: seq<Action>, pairs: bool, reconnects: bool)
    requires WValid(timeout, w, run) && forall a :: a in run ==> !Writes(a)
    ensures Disciplined(timeout, w, run, pairs, reconnects)
    decreases |run|
  {
    if run != [] {
      assert run[0] in run && forall a :: a in run[1..] ==> a in run;
      WithoutWrites(timeout, WApply(timeout, w, run[0]), run[1..], pairs, reconnects);
    }
  }

  lemma {:induction false} MatchingRun(timeout: nat, w: World, run: seq<Action>, reconnects: bool)
    requires WInv(w) && WValid(timeout, w, run) && Disciplined(timeout, w, run, true, reconnects)
    requires reconnects || (NoJunk(w) && WellFormed(run))
    ensures WInv(WExec(timeout, w, run))
    ensures NoJunk(w) && WellFormed(run) ==> NoJunk(WExec(timeout, w, run))
    decreases |run|
  {
    if run != [] {
      assert run[0] in run && forall a :: a in run[1..] ==> a in run;
      if Writes(run[0]) && reconnects {
        CleanAfterSuccess(w);
      } else if Writes(run[0]) {
        CleanWithoutJunk(w);
      }
      WInvStep(timeout, w, run[0]);
      if NoJunk(w) && WellFormed(run) {
        NoJunkStep(timeout, w, run[0]);
      }
      MatchingRun(timeout, WApply(timeout, w, run[0]), run[1..], reconnects);
    }
  }

  lemma InitInv(start: int)
    ensures WInv(Init(start)) && NoJunk(Init(start))
  {
  }

  /** Main result: with a server that answers every request at most once, in whatever order, and sends
    * nothing else and nothing too long, every value that a request returns, in any run of requests,
    * answers that very request. */
  lemma EveryValueAnswersItsCall(timeout: nat, start: int, run: seq<Action>)
    requires WValid(timeout, Init(start), run) && WellFormed(run) && Requests(timeout, Init(start), run)
    ensures Matching(WExec(timeout, Init(start), run).wire.log)
  {
    InitInv(start);
    MatchingRun(timeout, Init(start), run, false);
  }
}
