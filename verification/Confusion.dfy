/** Which ways of using a connection are safe, and the runs that show it of the others. */
module Confusion {
  import opened Wrappers
  import opened Messages
  import opened EventLoop
  import opened Connection

  /** What the peer may send, and what the client does: it connects again, or not, after a read that
    * has failed, and it reads, or not, after every write. */
  datatype Policy = Policy(mayJunk: bool, mayOversize: bool, reconnects: bool, pairs: bool)

  ghost predicate Admits(policy: Policy, run: seq<Action>) {
    && (!policy.mayJunk ==> Peer(Junk) !in run)
    && (!policy.mayOversize ==> forall a :: a in run ==> !Oversizes(a))
  }

  ghost predicate UnderPolicy(timeout: nat, w: World, run: seq<Action>, policy: Policy) {
    WValid(timeout, w, run) && Admits(policy, run) && Disciplined(timeout, w, run, policy.pairs, policy.reconnects)
  }

  ghost predicate AlwaysMatches(timeout: nat, start: int, policy: Policy) {
    forall run :: UnderPolicy(timeout, Init(start), run, policy) ==> Matching(WExec(timeout, Init(start), run).wire.log)
  }

  /** Main result: values match their calls in all runs exactly when the client reads after every
    * write, and either connects again after every failed read or has a peer that sends only answers
    * and none that is too long. */
  lemma MatchingExactly(timeout: nat, start: int, policy: Policy)
    requires timeout > 0
    ensures AlwaysMatches(timeout, start, policy)
       <==> policy.pairs && (policy.reconnects || (!policy.mayJunk && !policy.mayOversize))
  {
    if !policy.pairs {
      TwoWritesConfuse(timeout, start, policy);
      NotMatching(timeout, start, TwoWritesRun(), 0, policy);
    } else if !policy.reconnects && policy.mayJunk {
      JunkConfuses(timeout, start, policy);
      NotMatching(timeout, start, ConfusedRun(), 0, policy);
    } else if !policy.reconnects && policy.mayOversize {
      OversizedConfuses(timeout, start, policy);
      NotMatching(timeout, start, OversizedRun(), 1, policy);
    } else {
      SafePolicy(timeout, start, policy);
    }
  }

  lemma SafePolicy(timeout: nat, start: int, policy: Policy)
    requires policy.pairs && (policy.reconnects || (!policy.mayJunk && !policy.mayOversize))
    ensures AlwaysMatches(timeout, start, policy)
  {
    InitInv(start);
    forall run | UnderPolicy(timeout, Init(start), run, policy)
      ensures Matching(WExec(timeout, Init(start), run).wire.log)
    {
      MatchingRun(timeout, Init(start), run, policy.reconnects);
    }
  }

  /** The run ends with one value in the log, the answer to the call before. */
  ghost predicate Confuses(timeout: nat, start: int, run: seq<Action>, k: nat, policy: Policy) {
    UnderPolicy(timeout, Init(start), run, policy) && WExec(timeout, Init(start), run).wire.log == [(k + 1, AnswerTo(k))]
  }

  lemma NotMatching(timeout: nat, start: int, run: seq<Action>, k: nat, policy: Policy)
    requires Confuses(timeout, start, run, k, policy)
    ensures !AlwaysMatches(timeout, start, policy)
  {
    var log := WExec(timeout, Init(start), run).wire.log;
    assert log[0].1.call != log[0].0;
  }

  /** One call without internal steps: it begins, the stale deadline handler runs, `acts` happen on
    * the connection, the operation finishes, and its handler runs. */
  function CallRun(kind: Kind, acts: seq<Action>, r: Result): seq<Action> {
    [Begin(kind, 0, true), RunWait] + (acts + [Finish(r), RunOperation])
  }

  const USABLE := Reply(true, true, true)

  /** A request is met with junk before its answer; the next one, on the same connection, reads the
    * answer to the first. */
  function ConfusedRun(): seq<Action> {
    CallRun(Connecting, [], Ok)
    + (CallRun(Writing, [], Ok)
    + (CallRun(Reading, [Peer(Junk), Peer(Answer(0, USABLE))], Err)
    + (CallRun(Writing, [], Ok)
    + (CallRun(Reading, [], Ok) + [Deliver]))))
  }

  /** A request that is written but not read, and then a whole one. */
  function TwoWritesRun(): seq<Action> {
    CallRun(Connecting, [], Ok)
    + (CallRun(Writing, [], Ok)
    + (CallRun(Writing, [], Ok)
    + (CallRun(Reading, [Peer(Answer(0, USABLE))], Ok) + [Deliver])))
  }

  /** The answer to the first request is too long, and its rest makes the next read fail as well; so
    * the third request reads the answer to the second. */
  function OversizedRun(): seq<Action> {
    CallRun(Connecting, [], Ok)
    + (CallRun(Writing, [], Ok)
    + (CallRun(Reading, [Peer(Oversized(0, 1))], Err)
    + (CallRun(Writing, [], Ok)
    + (CallRun(Reading, [Peer(Answer(0, USABLE))], Err)
    + (CallRun(Writing, [], Ok)
    + (CallRun(Reading, [], Ok) + [Deliver]))))))
  }

  /** A disciplined run from one state to another. */
  ghost predicate Leads(timeout: nat, w: World, run: seq<Action>, v: World, policy: Policy) {
    UnderPolicy(timeout, w, run, policy) && WExec(timeout, w, run) == v
  }

  lemma AdmitsJoin(policy: Policy, a: seq<Action>, b: seq<Action>)
    ensures Admits(policy, a + b) <==> Admits(policy, a) && Admits(policy, b)
  {
    assert forall x :: x in a || x in b <==> x in a + b;
  }

  lemma LeadsOn(
    timeout: nat, w: World, a: seq<Action>, v: World, b: seq<Action>, u: World, policy: Policy)
    requires Leads(timeout, w, a, v, policy) && Leads(timeout, v, b, u, policy)
    ensures Leads(timeout, w, a + b, u, policy)
  {
    WSplit(timeout, w, a, b);
    DisciplineSplit(timeout, w, a, b, policy.pairs, policy.reconnects);
    AdmitsJoin(policy, a, b);
  }

  lemma LeadsOne(timeout: nat, w: World, a: Action, policy: Policy)
    requires WEnabled(w, a) && (Writes(a) ==> MayWrite(w, policy.pairs, policy.reconnects)) && Admits(policy, [a])
    ensures Leads(timeout, w, [a], WApply(timeout, w, a), policy)
  {
    assert [a][1..] == [];
  }

  /** A call's operation in flight, its stale deadline handler already run. */
  function Flying(now: int, timeout: nat): State {
    State(now, At(now + timeout), true, 1, 0, InFlight(0), WouldBlock)
  }

  function Landed(now: int, timeout: nat, r: Result): State {
    State(now, At(now + timeout), true, 1, 0, Idle, if r == Ok then Success else Failed)
  }

  lemma CallBegins(timeout: nat, w: World, kind: Kind, policy: Policy)
    requires timeout > 0 && Inv(w.loop) && !w.loop.Looping() && (kind == Connecting || w.loop.open)
    requires kind != Handshaking && (kind == Writing ==> MayWrite(w, policy.pairs, policy.reconnects))
    ensures var v := World(Flying(w.loop.now, timeout), WireApply(w, Begin(kind, 0, true)));
            Leads(timeout, w, [Begin(kind, 0, true), RunWait], v, policy)
  {
    var begin := Begin(kind, 0, true);
    var u := WApply(timeout, w, begin);
    var v := World(Flying(w.loop.now, timeout), WireApply(w, begin));
    LeadsOne(timeout, w, begin, policy);
    assert WEnabled(u, RunWait) && WApply(timeout, u, RunWait) == v;
    LeadsOne(timeout, u, RunWait, policy);
    LeadsOn(timeout, w, [begin], u, [RunWait], v, policy);
    assert [begin] + [RunWait] == [begin, RunWait];
  }

  lemma CallEnds(timeout: nat, now: int, c: Wire, r: Result, policy: Policy)
    requires WireEnabled(World(Flying(now, timeout), c), Finish(r))
    ensures var w := World(Flying(now, timeout), c);
            var v := World(Landed(now, timeout, r), WireApply(w, Finish(r)));
            Leads(timeout, w, [Finish(r), RunOperation], v, policy)
  {
    var w := World(Flying(now, timeout), c);
    var u := WApply(timeout, w, Finish(r));
    LeadsOne(timeout, w, Finish(r), policy);
    LeadsOne(timeout, u, RunOperation, policy);
    LeadsOn(timeout, w, [Finish(r)], u, [RunOperation], WApply(timeout, u, RunOperation), policy);
    assert [Finish(r)] + [RunOperation] == [Finish(r), RunOperation];
  }

  /** What a call of CallRun does to the connection; `mid` is the connection after `acts`. */
  lemma CallEffect(
    timeout: nat, w: World, kind: Kind, acts: seq<Action>, mid: Wire, r: Result, policy: Policy)
    requires timeout > 0 && Inv(w.loop) && !w.loop.Looping() && (kind == Connecting || w.loop.open)
    requires kind != Handshaking && (kind == Writing ==> MayWrite(w, policy.pairs, policy.reconnects))
    requires var u := World(Flying(w.loop.now, timeout), WireApply(w, Begin(kind, 0, true)));
             Leads(timeout, u, acts, World(u.loop, mid), policy)
    requires WireEnabled(World(Flying(w.loop.now, timeout), mid), Finish(r))
    ensures var v := World(Landed(w.loop.now, timeout, r), WireApply(World(Flying(w.loop.now, timeout), mid), Finish(r)));
            Leads(timeout, w, CallRun(kind, acts, r), v, policy)
  {
    var u := World(Flying(w.loop.now, timeout), WireApply(w, Begin(kind, 0, true)));
    var m := World(u.loop, mid);
    var v := World(Landed(w.loop.now, timeout, r), WireApply(m, Finish(r)));
    CallBegins(timeout, w, kind, policy);
    CallEnds(timeout, w.loop.now, mid, r, policy);
    LeadsOn(timeout, u, acts, m, [Finish(r), RunOperation], v, policy);
    LeadsOn(timeout, w, [Begin(kind, 0, true), RunWait], u, acts + [Finish(r), RunOperation], v, policy);
  }

  function AnswerTo(k: nat): Item {
    Response(k, USABLE)
  }

  /** Between calls, on a living connection, after `next` calls of which none has returned a value. */
  function Standing(start: int, timeout: nat, r: Result, kind: Kind, next: nat, asked: seq<nat>, unread: seq<Item>): World {
    World(Landed(start, timeout, r), Wire(next, kind, true, asked, unread, None, []))
  }

  /** A write that succeeds. */
  lemma WriteEffect(timeout: nat, w: World, policy: Policy)
    requires timeout > 0 && Inv(w.loop) && !w.loop.Looping() && w.loop.open && w.wire.alive && w.wire.log == []
    requires MayWrite(w, policy.pairs, policy.reconnects)
    ensures var n := w.wire.next;
            var v := Standing(w.loop.now, timeout, Ok, Writing, n + 1, w.wire.asked + [n], w.wire.unread);
            Leads(timeout, w, CallRun(Writing, [], Ok), v, policy)
  {
    var mid := Wire(w.wire.next + 1, Writing, true, w.wire.asked, w.wire.unread, None, []);
    CallEffect(timeout, w, Writing, [], mid, Ok, policy);
  }

  /** A read that meets garbage. */
  lemma FailedRead(
    timeout: nat, w: World, acts: seq<Action>, asked: seq<nat>, unread: seq<Item>, policy: Policy)
    requires timeout > 0 && w.loop == Landed(w.loop.now, timeout, Ok) && w.wire.log == []
    requires var u := World(Flying(w.loop.now, timeout), WireApply(w, Begin(Reading, 0, true)));
             Leads(timeout, u, acts, World(u.loop, u.wire.(asked := asked, unread := [Garbage] + unread)), policy)
    requires w.wire.alive
    ensures var v := Standing(w.loop.now, timeout, Err, Reading, w.wire.next, asked, unread);
            Leads(timeout, w, CallRun(Reading, acts, Err), v, policy)
  {
    var mid := Wire(w.wire.next, Reading, true, asked, [Garbage] + unread, None, []);
    CallEffect(timeout, w, Reading, acts, mid, Err, policy);
    assert ([Garbage] + unread)[1..] == unread;
  }

  /** The read that ends with the answer to call `k` although the next call is the current one. */
  lemma WrongRead(timeout: nat, w: World, acts: seq<Action>, k: nat, asked: seq<nat>, policy: Policy)
    requires timeout > 0 && w.loop == Landed(w.loop.now, timeout, Ok) && w.wire.next == k + 2 && w.wire.log == []
    requires var u := World(Flying(w.loop.now, timeout), WireApply(w, Begin(Reading, 0, true)));
             Leads(timeout, u, acts, World(u.loop, Wire(k + 2, Reading, true, asked, [AnswerTo(k)], None, [])), policy)
    ensures exists v: World ::
              v.wire.log == [(k + 1, AnswerTo(k))] && Leads(timeout, w, CallRun(Reading, acts, Ok) + [Deliver], v, policy)
  {
    CallEffect(timeout, w, Reading, acts, Wire(k + 2, Reading, true, asked, [AnswerTo(k)], None, []), Ok, policy);
    assert [AnswerTo(k)][1..] == [];
    var v := World(Landed(w.loop.now, timeout, Ok), Wire(k + 2, Reading, true, asked, [], Some(AnswerTo(k)), []));
    LeadsOne(timeout, v, Deliver, policy);
    LeadsOn(timeout, w, CallRun(Reading, acts, Ok), v, [Deliver], WApply(timeout, v, Deliver), policy);
    assert WApply(timeout, v, Deliver).wire.log == [(k + 1, AnswerTo(k))];
  }

  /** Connecting and the first write. */
  lemma FirstWrite(timeout: nat, start: int, policy: Policy)
    requires timeout > 0
    ensures Leads(timeout, Init(start), CallRun(Connecting, [], Ok) + CallRun(Writing, [], Ok),
                  Standing(start, timeout, Ok, Writing, 1, [0], []), policy)
  {
    var w1, w2 := Standing(start, timeout, Ok, Connecting, 0, [], []), Standing(start, timeout, Ok, Writing, 1, [0], []);
    CallEffect(timeout, Init(start), Connecting, [], Wire(0, Connecting, false, [], [], None, []), Ok, policy);
    WriteEffect(timeout, w1, policy);
    assert [] + [0] == [0];
    LeadsOn(timeout, Init(start), CallRun(Connecting, [], Ok), w1, CallRun(Writing, [], Ok), w2, policy);
  }

  /** A failed read, the next write, and the rest. */
  lemma ReadWriteOn(
    timeout: nat, w: World, read: seq<Action>, v: World, u: World, rest: seq<Action>, n: World, policy: Policy)
    requires Leads(timeout, w, read, v, policy)
    requires Leads(timeout, v, CallRun(Writing, [], Ok), u, policy) && Leads(timeout, u, rest, n, policy)
    ensures Leads(timeout, w, read + (CallRun(Writing, [], Ok) + rest), n, policy)
  {
    LeadsOn(timeout, v, CallRun(Writing, [], Ok), u, rest, n, policy);
    LeadsOn(timeout, w, read, v, CallRun(Writing, [], Ok) + rest, n, policy);
  }

  /** Connecting and the first write, and the rest. */
  lemma FromStart(timeout: nat, start: int, rest: seq<Action>, n: World, policy: Policy)
    requires timeout > 0
    requires Leads(timeout, Standing(start, timeout, Ok, Writing, 1, [0], []), rest, n, policy)
    ensures Leads(timeout, Init(start), CallRun(Connecting, [], Ok) + (CallRun(Writing, [], Ok) + rest), n, policy)
  {
    FirstWrite(timeout, start, policy);
    var w := Standing(start, timeout, Ok, Writing, 1, [0], []);
    var connect, write := CallRun(Connecting, [], Ok), CallRun(Writing, [], Ok);
    LeadsOn(timeout, Init(start), connect + write, w, rest, n, policy);
    assert (connect + write) + rest == connect + (write + rest);
  }

  // ---------- the concrete run with junk ----------

  const JUNK_READ := CallRun(Reading, [Peer(Junk), Peer(Answer(0, USABLE))], Err)

  /** After it the answer to the first request is unread, and the socket is open. */
  lemma JunkRead(timeout: nat, start: int, policy: Policy)
    requires timeout > 0 && policy.mayJunk
    ensures Leads(timeout, Standing(start, timeout, Ok, Writing, 1, [0], []), JUNK_READ,
                  Standing(start, timeout, Err, Reading, 1, [], [AnswerTo(0)]), policy)
  {
    var u := World(Flying(start, timeout), Wire(1, Reading, true, [0], [], None, []));
    var v := World(u.loop, u.wire.(unread := [Garbage]));
    var t := World(u.loop, Wire(1, Reading, true, [], [Garbage, AnswerTo(0)], None, []));
    LeadsOne(timeout, u, Peer(Junk), policy);
    assert WApply(timeout, u, Peer(Junk)) == v;
    LeadsOne(timeout, v, Peer(Answer(0, USABLE)), policy);
    assert WApply(timeout, v, Peer(Answer(0, USABLE))) == t;
    LeadsOn(timeout, u, [Peer(Junk)], v, [Peer(Answer(0, USABLE))], t, policy);
    assert [Peer(Junk)] + [Peer(Answer(0, USABLE))] == [Peer(Junk), Peer(Answer(0, USABLE))];
    assert [Garbage] + [AnswerTo(0)] == [Garbage, AnswerTo(0)];
    var w := Standing(start, timeout, Ok, Writing, 1, [0], []);
    FailedRead(timeout, w, [Peer(Junk), Peer(Answer(0, USABLE))], [], [AnswerTo(0)], policy);
  }

  /** The concrete run in which a request returns the answer to the request before it. */
  lemma JunkConfuses(timeout: nat, start: int, policy: Policy)
    requires timeout > 0 && policy.mayJunk && !policy.reconnects
    ensures Confuses(timeout, start, ConfusedRun(), 0, policy)
  {
    var w2 := Standing(start, timeout, Ok, Writing, 1, [0], []);
    var w3 := Standing(start, timeout, Err, Reading, 1, [], [AnswerTo(0)]);
    var w4 := Standing(start, timeout, Ok, Writing, 2, [1], [AnswerTo(0)]);
    JunkRead(timeout, start, policy);
    WriteEffect(timeout, w3, policy);
    assert [] + [1] == [1];
    WrongRead(timeout, w4, [], 0, [1], policy);
    var last := CallRun(Reading, [], Ok) + [Deliver];
    var v: World :| v.wire.log == [(1, AnswerTo(0))] && Leads(timeout, w4, last, v, policy);
    ReadWriteOn(timeout, w2, JUNK_READ, w3, w4, last, v, policy);
    FromStart(timeout, start, JUNK_READ + (CallRun(Writing, [], Ok) + last), v, policy);
  }

  // ---------- the concrete run with an oversized answer ----------

  const OVERSIZED_READ := CallRun(Reading, [Peer(Oversized(0, 1))], Err)
  const SECOND_READ := CallRun(Reading, [Peer(Answer(0, USABLE))], Err)

  /** The read of an answer that is too long leaves a piece of it behind. */
  lemma OversizedRead(timeout: nat, start: int, policy: Policy)
    requires timeout > 0 && policy.mayOversize
    ensures Leads(timeout, Standing(start, timeout, Ok, Writing, 1, [0], []), OVERSIZED_READ,
                  Standing(start, timeout, Err, Reading, 1, [], [Garbage]), policy)
  {
    var u := World(Flying(start, timeout), Wire(1, Reading, true, [0], [], None, []));
    LeadsOne(timeout, u, Peer(Oversized(0, 1)), policy);
    assert Pieces(2) == [Garbage] + Pieces(1) && Pieces(1) == [Garbage] + [];
    assert WApply(timeout, u, Peer(Oversized(0, 1))) == World(u.loop, u.wire.(asked := [], unread := [Garbage] + [Garbage]));
    FailedRead(timeout, Standing(start, timeout, Ok, Writing, 1, [0], []), [Peer(Oversized(0, 1))], [], [Garbage], policy);
  }

  /** The next read fails on this piece, and leaves its own answer behind. */
  lemma SecondRead(timeout: nat, start: int, policy: Policy)
    requires timeout > 0
    ensures Leads(timeout, Standing(start, timeout, Ok, Writing, 2, [1], [Garbage]), SECOND_READ,
                  Standing(start, timeout, Err, Reading, 2, [], [AnswerTo(1)]), policy)
  {
    var u := World(Flying(start, timeout), Wire(2, Reading, true, [1], [Garbage], None, []));
    LeadsOne(timeout, u, Peer(Answer(0, USABLE)), policy);
    var mid := u.wire.(asked := [], unread := [Garbage] + [AnswerTo(1)]);
    assert WApply(timeout, u, Peer(Answer(0, USABLE))) == World(u.loop, mid);
    var w := Standing(start, timeout, Ok, Writing, 2, [1], [Garbage]);
    FailedRead(timeout, w, [Peer(Answer(0, USABLE))], [], [AnswerTo(1)], policy);
  }

  /** The third request, after the second read has failed. */
  lemma ThirdRequest(timeout: nat, start: int, policy: Policy) returns (v: World)
    requires timeout > 0 && !policy.reconnects
    ensures v.wire.log == [(2, AnswerTo(1))]
    ensures Leads(timeout, Standing(start, timeout, Ok, Writing, 2, [1], [Garbage]),
                  SECOND_READ + (CallRun(Writing, [], Ok) + (CallRun(Reading, [], Ok) + [Deliver])), v, policy)
  {
    var w4 := Standing(start, timeout, Ok, Writing, 2, [1], [Garbage]);
    var w5 := Standing(start, timeout, Err, Reading, 2, [], [AnswerTo(1)]);
    var w6 := Standing(start, timeout, Ok, Writing, 3, [2], [AnswerTo(1)]);
    SecondRead(timeout, start, policy);
    WriteEffect(timeout, w5, policy);
    assert [] + [2] == [2];
    WrongRead(timeout, w6, [], 1, [2], policy);
    var last := CallRun(Reading, [], Ok) + [Deliver];
    v :| v.wire.log == [(2, AnswerTo(1))] && Leads(timeout, w6, last, v, policy);
    ReadWriteOn(timeout, w4, SECOND_READ, w5, w6, last, v, policy);
  }

  /** The first read, the second write, and the rest. */
  lemma AfterOversized(timeout: nat, start: int, policy: Policy, rest: seq<Action>, v: World)
    requires timeout > 0 && policy.mayOversize && !policy.reconnects
    requires Leads(timeout, Standing(start, timeout, Ok, Writing, 2, [1], [Garbage]), rest, v, policy)
    ensures Leads(timeout, Standing(start, timeout, Ok, Writing, 1, [0], []),
                  OVERSIZED_READ + (CallRun(Writing, [], Ok) + rest), v, policy)
  {
    var w2 := Standing(start, timeout, Ok, Writing, 1, [0], []);
    var w3 := Standing(start, timeout, Err, Reading, 1, [], [Garbage]);
    var w4 := Standing(start, timeout, Ok, Writing, 2, [1], [Garbage]);
    OversizedRead(timeout, start, policy);
    WriteEffect(timeout, w3, policy);
    assert [] + [1] == [1];
    ReadWriteOn(timeout, w2, OVERSIZED_READ, w3, w4, rest, v, policy);
  }

  /** The concrete run in which every request is answered once and in order, one answer is too long, and
    * a later request returns the answer to the request before it. */
  lemma OversizedConfuses(timeout: nat, start: int, policy: Policy)
    requires timeout > 0 && policy.mayOversize && !policy.reconnects
    ensures Confuses(timeout, start, OversizedRun(), 1, policy)
  {
    var v := ThirdRequest(timeout, start, policy);
    var rest := SECOND_READ + (CallRun(Writing, [], Ok) + (CallRun(Reading, [], Ok) + [Deliver]));
    AfterOversized(timeout, start, policy, rest, v);
    FromStart(timeout, start, OVERSIZED_READ + (CallRun(Writing, [], Ok) + rest), v, policy);
  }

  // ---------- the concrete run with two writes ----------

  lemma ReadAfterTwoWrites(timeout: nat, start: int, policy: Policy)
    requires timeout > 0
    ensures exists v: World :: v.wire.log == [(1, AnswerTo(0))] &&
              Leads(timeout, Standing(start, timeout, Ok, Writing, 2, [0, 1], []),
                    CallRun(Reading, [Peer(Answer(0, USABLE))], Ok) + [Deliver], v, policy)
  {
    var u := World(Flying(start, timeout), Wire(2, Reading, true, [0, 1], [], None, []));
    LeadsOne(timeout, u, Peer(Answer(0, USABLE)), policy);
    assert Without([0, 1], 0) == [1];
    WrongRead(timeout, Standing(start, timeout, Ok, Writing, 2, [0, 1], []), [Peer(Answer(0, USABLE))], 0, [1], policy);
  }

  /** The concrete run in which a read after two writes returns the answer to the first one. */
  lemma TwoWritesConfuse(timeout: nat, start: int, policy: Policy)
    requires timeout > 0 && !policy.pairs
    ensures Confuses(timeout, start, TwoWritesRun(), 0, policy)
  {
    var w2 := Standing(start, timeout, Ok, Writing, 1, [0], []);
    var w3 := Standing(start, timeout, Ok, Writing, 2, [0, 1], []);
    WriteEffect(timeout, w2, policy);
    assert [0] + [1] == [0, 1];
    ReadAfterTwoWrites(timeout, start, policy);
    var write, last := CallRun(Writing, [], Ok), CallRun(Reading, [Peer(Answer(0, USABLE))], Ok) + [Deliver];
    var v: World :| v.wire.log == [(1, AnswerTo(0))] && Leads(timeout, w3, last, v, policy);
    LeadsOn(timeout, w2, write, w3, last, v, policy);
    FromStart(timeout, start, write + last, v, policy);
  }
}
