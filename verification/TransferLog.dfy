/** What the transfer tool does on every network, event by event, without reference to how it is
  * programmed: which transfers it sends and acknowledges, and what follows each error. */
module TransferLog {
  import opened Wrappers
  import opened Messages
  import opened Transfer

  // ---------- what one attempt does by itself ----------

  predicate HasValue(e: Exchange) {
    e.Replied? && e.reply.statusOk && e.reply.parses && e.reply.hasResult
  }

  /** What the error handler hears of an exchange. */
  function Failure(e: Written): Option<ErrorCode> {
    if e == WriteFails || e == ReadFails then Some(TIMEOUT)
    else if e.Replied? && e.reply.statusOk && !e.reply.parses then Some(FAIL)
    else None
  }

  /** The attempt has a transaction that can be written out. */
  predicate IsReady(a: Attempt) {
    && a.connecting == Connected && HasValue(a.blockExchange)
    && a.block == BlockId && a.transaction == Built
  }

  /** The attempt throws an exception. */
  predicate Raises(a: Attempt) {
    && a.connecting == Connected && HasValue(a.blockExchange)
    && (a.block == WrongType || (a.block == BlockId && a.transaction == Unwritable))
  }

  function Reported(o: Options, a: Attempt): Option<ErrorCode> {
    if a.connecting.ConnectFails? then Some(a.connecting.code)
    else if Failure(a.blockExchange).Some? then Failure(a.blockExchange)
    else if IsReady(a) && !o.test then Failure(a.send)
    else None
  }

  /** The events of one attempt, without its return. */
  function Own(o: Options, a: Attempt): seq<Event> {
    [Enter]
    + (if !IsReady(a) then []
       else if o.test then [BodyPrinted]
       else if HasValue(a.send) then [Sent(a.executed), Acknowledged]
       else [Sent(a.executed)])
    + (if Reported(o, a).Some? then [Error(Reported(o, a).value)] else [])
  }

  /** And with the report of its exception, if an outer attempt has caught it. */
  function Told(o: Options, a: Attempt, caught: bool): seq<Event> {
    Own(o, a) + if Raises(a) && caught then [Error(FAIL)] else []
  }

  /** The first `n` attempts, one after the other. */
  function Story(o: Options, net: Network, n: nat): seq<Event> {
    if n == 0 then [] else Story(o, net, n - 1) + Told(o, net(n - 1), true)
  }

  /** A log without the returns. */
  function Plain(log: seq<Event>): seq<Event> {
    if log == [] then []
    else Plain(log[..|log| - 1]) + if log[|log| - 1] == Leave then [] else [log[|log| - 1]]
  }

  lemma PlainAppend(log: seq<Event>, e: Event)
    ensures Plain(log + [e]) == Plain(log) + if e == Leave then [] else [e]
  {
    assert (log + [e])[..|log|] == log;
  }

  // ---------- the log is the story of the attempts ----------

  /** The log tells of all attempts; only the last one's exception may have gone through. */
  ghost predicate Tells(o: Options, net: Network, q: Progress) {
    && q.attempts > 0
    && Plain(q.log) == Story(o, net, q.attempts - 1) + Told(o, net(q.attempts - 1), q.outcome == Exited)
    && (q.outcome == Threw ==> Raises(net(q.attempts - 1)))
  }

  /** It does so once the handler has been called with `code`. */
  ghost predicate TellsBut(o: Options, net: Network, code: ErrorCode, p: Progress) {
    && p.attempts > 0
    && Plain(p.log) + [Error(code)] == Story(o, net, p.attempts)
    && (Raises(net(p.attempts - 1)) ==> code == FAIL)
  }

  /** Whatever the attempt is, its own events and a caught report are what is told of it. */
  lemma TellsWhole(o: Options, net: Network, q: Progress, caught: bool)
    requires q.attempts > 0 && Plain(q.log) == Story(o, net, q.attempts - 1) + Told(o, net(q.attempts - 1), caught)
    requires q.outcome == Threw ==> Raises(net(q.attempts - 1))
    requires Raises(net(q.attempts - 1)) ==> (caught <==> q.outcome == Exited)
    ensures Tells(o, net, q)
  {
  }

  lemma OwnIsTold(o: Options, a: Attempt)
    requires !Raises(a)
    ensures Told(o, a, true) == Own(o, a) == Told(o, a, false)
  {
  }

  lemma {:induction false} HandleTells(o: Options, net: Network, code: ErrorCode, p: Progress)
    requires TellsBut(o, net, code, p)
    ensures Tells(o, net, Handle(o, net, code, p))
    decreases Left(o, p.reconnections), 0
  {
    PlainAppend(p.log, Error(code));
    var counted := p.(outcome := Returned, reconnections := p.reconnections + 1, log := p.log + [Error(code)]);
    if counted.reconnections < o.reconnections && !o.test && code == FAIL {
      RunTells(o, net, counted);
    } else {
      StopTells(o, net, code, p, Handle(o, net, code, p));
    }
  }

  lemma StopTells(o: Options, net: Network, code: ErrorCode, p: Progress, q: Progress)
    requires TellsBut(o, net, code, p)
    requires q.log == p.log + [Error(code)] && q.attempts == p.attempts && q.outcome != Threw
    requires code == FAIL ==> q.outcome == Exited
    ensures Tells(o, net, q)
  {
    PlainAppend(p.log, Error(code));
    TellsWhole(o, net, q, true);
  }

  lemma {:induction false} RunTells(o: Options, net: Network, p: Progress)
    requires Plain(p.log) == Story(o, net, p.attempts)
    ensures Tells(o, net, Run(o, net, p))
    decreases Left(o, p.reconnections), 1
  {
    var entered := p.(attempts := p.attempts + 1, log := p.log + [Enter]);
    PlainAppend(p.log, Enter);
    BodyTells(o, net, net(p.attempts), entered);
    LeaveTells(o, net, Body(o, net, net(p.attempts), entered));
  }

  lemma LeaveTells(o: Options, net: Network, q: Progress)
    requires Tells(o, net, q)
    ensures Tells(o, net, q.(log := q.log + [Leave]))
  {
    PlainAppend(q.log, Leave);
    assert Plain(q.log) + [] == Plain(q.log);
  }

  lemma {:induction false} BodyTells(o: Options, net: Network, a: Attempt, p: Progress)
    requires p.attempts > 0 && a == net(p.attempts - 1)
    requires Plain(p.log) == Story(o, net, p.attempts - 1) + [Enter]
    ensures Tells(o, net, Body(o, net, a, p))
    decreases Left(o, p.reconnections), 1, 0
  {
    SettlesExactly(a.blockExchange);
    if a.connecting.ConnectFails? {
      ConnectTells(o, net, a, p);
    } else if Settle(a.blockExchange).ErrorHandler? {
      NeverReportsException(a.blockExchange);
      HandleTells(o, net, Settle(a.blockExchange).code, p);
    } else {
      SendTells(o, net, a, p);
    }
  }

  lemma {:induction false} ConnectTells(o: Options, net: Network, a: Attempt, p: Progress)
    requires p.attempts > 0 && a == net(p.attempts - 1) && a.connecting.ConnectFails?
    requires Plain(p.log) == Story(o, net, p.attempts - 1) + [Enter]
    ensures Tells(o, net, Body(o, net, a, p))
    decreases Left(o, p.reconnections), 1, 0, 0
  {
    HandleTells(o, net, a.connecting.code, p);
    var q := Handle(o, net, a.connecting.code, p);
    if q.outcome == Threw && a.connecting.guarded {
      HandleTells(o, net, FAIL, q.(outcome := Returned));
    }
  }

  lemma {:induction false} SendTells(o: Options, net: Network, a: Attempt, p: Progress)
    requires p.attempts > 0 && a == net(p.attempts - 1)
    requires a.connecting == Connected && !Settle(a.blockExchange).ErrorHandler?
    requires Plain(p.log) == Story(o, net, p.attempts - 1) + [Enter]
    ensures Tells(o, net, Body(o, net, a, p))
    decreases Left(o, p.reconnections), 1, 0, 0
  {
    if IsReady(a) && !o.test {
      SentTells(o, net, a, p);
    } else {
      EndsUnsent(o, net, a, p);
      UnsentTells(o, net, a, p, Body(o, net, a, p));
    }
  }

  lemma {:induction false} SentTells(o: Options, net: Network, a: Attempt, p: Progress)
    requires p.attempts > 0 && a == net(p.attempts - 1) && IsReady(a) && !o.test
    requires Plain(p.log) == Story(o, net, p.attempts - 1) + [Enter]
    ensures Tells(o, net, Body(o, net, a, p))
    decreases Left(o, p.reconnections), 1, 0, 0, 0
  {
    EndsSent(o, net, a, p);
    SentPlain(o, net, a, p);
    if Settle(a.send).ErrorHandler? {
      var sent := p.(log := p.log + [Sent(a.executed)]);
      StillToTell(o, net, a, sent);
      HandleTells(o, net, Settle(a.send).code, sent);
    } else {
      AnsweredTells(o, net, a, p.log + [Sent(a.executed)], Body(o, net, a, p));
    }
  }

  lemma AnsweredTells(o: Options, net: Network, a: Attempt, log: seq<Event>, q: Progress)
    requires q.attempts > 0 && a == net(q.attempts - 1) && IsReady(a) && !Settle(a.send).ErrorHandler?
    requires Plain(log) + OwnEnd(a) == Story(o, net, q.attempts - 1) + Told(o, a, true)
    requires Plain(log + [Acknowledged]) == Plain(log) + [Acknowledged]
    requires q.outcome == Returned && q.log == if HasValue(a.send) then log + [Acknowledged] else log
    ensures Tells(o, net, q)
  {
    assert Plain(log) + [] == Plain(log);
    TellsWhole(o, net, q, true);
  }

  lemma StillToTell(o: Options, net: Network, a: Attempt, sent: Progress)
    requires sent.attempts > 0 && a == net(sent.attempts - 1) && IsReady(a) && Settle(a.send).ErrorHandler?
    requires Plain(sent.log) + OwnEnd(a) == Story(o, net, sent.attempts - 1) + Told(o, a, true)
    ensures TellsBut(o, net, Settle(a.send).code, sent)
  {
  }

  lemma UnsentTells(o: Options, net: Network, a: Attempt, p: Progress, q: Progress)
    requires p.attempts > 0 && a == net(p.attempts - 1)
    requires a.connecting == Connected && !Settle(a.blockExchange).ErrorHandler? && !(IsReady(a) && !o.test)
    requires Plain(p.log) == Story(o, net, p.attempts - 1) + [Enter]
    requires q.attempts == p.attempts && q.outcome == (if Raises(a) then Threw else Returned)
    requires q.log == if IsReady(a) then p.log + [BodyPrinted] else p.log
    ensures Tells(o, net, q)
  {
    OwnUnsent(o, a);
    assert Told(o, a, false) == Own(o, a);
    if IsReady(a) {
      PlainAppend(p.log, BodyPrinted);
      PrintedLast(Story(o, net, p.attempts - 1));
    }
    TellsWhole(o, net, q, false);
  }

  lemma PrintedLast(before: seq<Event>)
    ensures (before + [Enter]) + [BodyPrinted] == before + ([Enter] + [BodyPrinted])
  {
  }

  /** Without a transaction, or in test mode, the attempt ends with nothing sent. */
  lemma EndsUnsent(o: Options, net: Network, a: Attempt, p: Progress)
    requires a.connecting == Connected && !Settle(a.blockExchange).ErrorHandler? && !(IsReady(a) && !o.test)
    ensures var q := Body(o, net, a, p);
            && q.attempts == p.attempts && q.outcome == (if Raises(a) then Threw else Returned)
            && q.log == if IsReady(a) then p.log + [BodyPrinted] else p.log
  {
    SettlesExactly(a.blockExchange);
  }

  lemma OwnUnsent(o: Options, a: Attempt)
    requires a.connecting == Connected && !Settle(a.blockExchange).ErrorHandler? && !(IsReady(a) && !o.test)
    ensures Own(o, a) == if IsReady(a) then [Enter] + [BodyPrinted] else [Enter]
  {
    SettlesExactly(a.blockExchange);
  }

  /** The plain log after the transfer is sent, and after what the answer brings. */
  lemma SentPlain(o: Options, net: Network, a: Attempt, p: Progress)
    requires p.attempts > 0 && a == net(p.attempts - 1) && IsReady(a) && !o.test
    requires Plain(p.log) == Story(o, net, p.attempts - 1) + [Enter]
    ensures var log := p.log + [Sent(a.executed)];
            && Plain(log) + OwnEnd(a) == Story(o, net, p.attempts - 1) + Told(o, a, true)
            && Plain(log + [Acknowledged]) == Plain(log) + [Acknowledged]
  {
    PlainAppend(p.log, Sent(a.executed));
    PlainAppend(p.log + [Sent(a.executed)], Acknowledged);
    OwnSent(o, a);
    OwnIsTold(o, a);
    Rebracket(Story(o, net, p.attempts - 1), [Enter], [Sent(a.executed)], OwnEnd(a));
  }

  lemma Rebracket(a: seq<Event>, b: seq<Event>, c: seq<Event>, d: seq<Event>)
    ensures ((a + b) + c) + d == a + ((b + c) + d)
  {
  }

  /** What follows a transfer that is sent. */
  function OwnEnd(a: Attempt): seq<Event> {
    if Settle(a.send).ErrorHandler? then [Error(Settle(a.send).code)]
    else if HasValue(a.send) then [Acknowledged]
    else []
  }

  lemma EndsSent(o: Options, net: Network, a: Attempt, p: Progress)
    requires IsReady(a) && !o.test
    ensures var sent := p.(log := p.log + [Sent(a.executed)]);
            Body(o, net, a, p) == (
              if Settle(a.send).ErrorHandler? then Handle(o, net, Settle(a.send).code, sent)
              else sent.(outcome := Returned, log := if HasValue(a.send) then sent.log + [Acknowledged] else sent.log))
  {
    SettlesExactly(a.blockExchange);
    SettlesExactly(a.send);
  }

  lemma OwnSent(o: Options, a: Attempt)
    requires IsReady(a) && !o.test
    ensures Own(o, a) == ([Enter] + [Sent(a.executed)]) + OwnEnd(a)
  {
    SettlesExactly(a.send);
    NeverReportsException(a.send);
  }

  /** Main result, for all networks: apart from the returns, the log is what the attempts do by
    * themselves, one after the other, and one FAIL for each exception that an outer attempt catches;
    * only the last attempt's exception can go through, and does unless the tool has exited. */
  lemma LogExactly(o: Options, net: Network)
    ensures var q := RunTool(o, net);
            && q.attempts > 0
            && Plain(q.log) == Story(o, net, q.attempts - 1) + Told(o, net(q.attempts - 1), q.outcome == Exited)
  {
    RunTells(o, net, FRESH);
  }

  // ---------- what is sent, and what is printed ----------

  /** The transfers that a log reports as sent, each with whether it is executed. */
  function Sends(log: seq<Event>): seq<bool> {
    if log == [] then []
    else Sends(log[..|log| - 1]) + if log[|log| - 1].Sent? then [log[|log| - 1].delivered] else []
  }

  /** The transfers of the first `n` attempts. */
  function SendsOf(o: Options, net: Network, n: nat): seq<bool> {
    if n == 0 then []
    else SendsOf(o, net, n - 1) + if IsReady(net(n - 1)) && !o.test then [net(n - 1).executed] else []
  }

  lemma SendsAppend(log: seq<Event>, e: Event)
    ensures Sends(log + [e]) == Sends(log) + if e.Sent? then [e.delivered] else []
  {
    assert (log + [e])[..|log|] == log;
  }

  lemma {:induction false} SendsConcat(a: seq<Event>, b: seq<Event>)
    ensures Sends(a + b) == Sends(a) + Sends(b)
    decreases |b|
  {
    if b == [] {
      assert a + b == a;
    } else {
      var c, e := b[..|b| - 1], b[|b| - 1];
      assert a + b == (a + c) + [e] && b == c + [e];
      SendsConcat(a, c);
      SendsAppend(a + c, e);
      SendsAppend(c, e);
    }
  }

  lemma {:induction false} SendsOfPlain(log: seq<Event>)
    ensures Sends(Plain(log)) == Sends(log)
    decreases |log|
  {
    if log != [] {
      var c, e := log[..|log| - 1], log[|log| - 1];
      assert log == c + [e];
      SendsOfPlain(c);
      PlainAppend(c, e);
      SendsAppend(c, e);
      if e == Leave {
        assert Plain(log) == Plain(c);
      } else {
        SendsAppend(Plain(c), e);
      }
    }
  }

  lemma SendsOfTold(o: Options, a: Attempt, caught: bool)
    ensures Sends(Told(o, a, caught)) == if IsReady(a) && !o.test then [a.executed] else []
  {
    var middle := if !IsReady(a) then []
                  else if o.test then [BodyPrinted]
                  else if HasValue(a.send) then [Sent(a.executed), Acknowledged]
                  else [Sent(a.executed)];
    var report := if Reported(o, a).Some? then [Error(Reported(o, a).value)] else [];
    var extra := if Raises(a) && caught then [Error(FAIL)] else [];
    SendsOfFew(o, a, middle);
    SendsConcat([Enter] + middle + report, extra);
    SendsConcat([Enter] + middle, report);
    SendsConcat([Enter], middle);
    SendsOfOne(Enter);
    SendsOfOne(Error(FAIL));
    if Reported(o, a).Some? {
      SendsOfOne(Error(Reported(o, a).value));
    }
  }

  lemma SendsOfOne(e: Event)
    ensures Sends([e]) == if e.Sent? then [e.delivered] else []
  {
    assert [] + [e] == [e];
    SendsAppend([], e);
  }

  lemma SendsOfFew(o: Options, a: Attempt, middle: seq<Event>)
    requires middle in {[], [BodyPrinted], [Sent(a.executed), Acknowledged], [Sent(a.executed)]}
    ensures Sends(middle) == if middle == [] || middle == [BodyPrinted] then [] else [a.executed]
  {
    SendsOfOne(BodyPrinted);
    SendsOfOne(Sent(a.executed));
    assert [Sent(a.executed)] + [Acknowledged] == [Sent(a.executed), Acknowledged];
    SendsAppend([Sent(a.executed)], Acknowledged);
  }

  lemma {:induction false} SendsOfStory(o: Options, net: Network, n: nat)
    ensures Sends(Story(o, net, n)) == SendsOf(o, net, n)
  {
    if n > 0 {
      var before, told := Story(o, net, n - 1), Told(o, net(n - 1), true);
      SendsOfStory(o, net, n - 1);
      SendsOfTold(o, net(n - 1), true);
      SendsConcat(before, told);
      assert Story(o, net, n) == before + told;
    }
  }

  /** Main result, for all networks: exactly the attempts that have a transaction ready send a transfer,
    * once each and in their order; none does in test mode. */
  lemma SentExactly(o: Options, net: Network)
    ensures Sends(RunTool(o, net).log) == SendsOf(o, net, RunTool(o, net).attempts)
  {
    LogExactly(o, net);
    var q := RunTool(o, net);
    var last := Told(o, net(q.attempts - 1), q.outcome == Exited);
    SendsOfPlain(q.log);
    SendsConcat(Story(o, net, q.attempts - 1), last);
    SendsOfTold(o, net(q.attempts - 1), q.outcome == Exited);
    SendsOfStory(o, net, q.attempts - 1);
  }

  // ---------- what follows what ----------

  /** How many errors have been reported. */
  function Errors(log: seq<Event>): nat {
    if log == [] then 0 else Errors(log[..|log| - 1]) + if log[|log| - 1].Error? then 1 else 0
  }

  lemma ErrorsAppend(log: seq<Event>, e: Event)
    ensures Errors(log + [e]) == Errors(log) + if e.Error? then 1 else 0
  {
    assert (log + [e])[..|log|] == log;
  }

  /** The rule for the i-th event of the log of `q`: an error at the limit or in test mode is the last
    * event; after another one comes the next attempt, for FAIL, or a return.  An acknowledgement comes
    * right after the sending of the last attempt's transfer. */
  ghost predicate Follows(o: Options, net: Network, q: Progress, i: nat)
    requires i < |q.log|
  {
    match q.log[i]
    case Error(code) =>
      if o.test || Errors(q.log[..i + 1]) >= o.reconnections then i == |q.log| - 1 && q.outcome == Exited
      else if i == |q.log| - 1 then code != FAIL && q.outcome == Returned
      else q.log[i + 1] == if code == FAIL then Enter else Leave
    case Acknowledged =>
      q.outcome == Returned && q.attempts > 0 && i > 0 && q.log[i - 1] == Sent(net(q.attempts - 1).executed)
    case BodyPrinted => o.test && q.outcome == Returned
    case Leave => q.outcome == Returned
    case _ => true
  }

  /** From `p` to `q` the log has grown by the rule. */
  ghost predicate Ruled(o: Options, net: Network, p: Progress, q: Progress) {
    && p.log <= q.log
    && (Errors(p.log) == p.reconnections ==> Errors(q.log) == q.reconnections)
    && (q.outcome == Exited ==> |p.log| < |q.log| && q.log[|q.log| - 1].Error?)
    && forall i :: |p.log| <= i < |q.log| ==> Follows(o, net, q, i)
  }

  lemma {:induction false} HandleRuled(o: Options, net: Network, code: ErrorCode, p: Progress)
    requires Errors(p.log) == p.reconnections
    ensures Ruled(o, net, p, Handle(o, net, code, p))
    decreases Left(o, p.reconnections), 0
  {
    var counted := p.(outcome := Returned, reconnections := p.reconnections + 1, log := p.log + [Error(code)]);
    ErrorsAppend(p.log, Error(code));
    if counted.reconnections < o.reconnections && !o.test && code == FAIL {
      RunRuled(o, net, counted);
      AgainRuled(o, net, p, counted, Run(o, net, counted));
    } else {
      StopRuled(o, net, p, code, Handle(o, net, code, p));
    }
  }

  lemma StopRuled(o: Options, net: Network, p: Progress, code: ErrorCode, q: Progress)
    requires Errors(p.log) == p.reconnections && q.reconnections == p.reconnections + 1
    requires q.log == p.log + [Error(code)]
    requires q.outcome == if q.reconnections >= o.reconnections || o.test then Exited else Returned
    requires q.outcome == Returned ==> code != FAIL
    ensures Ruled(o, net, p, q)
  {
    ErrorsAppend(p.log, Error(code));
    assert q.log[..|q.log|] == q.log;
  }

  lemma AgainRuled(o: Options, net: Network, p: Progress, counted: Progress, q: Progress)
    requires counted.log == p.log + [Error(FAIL)] && counted.reconnections == p.reconnections + 1
    requires Errors(counted.log) == counted.reconnections < o.reconnections && !o.test
    requires Ruled(o, net, counted, q) && |counted.log| < |q.log| && q.log[|counted.log|] == Enter
    ensures Ruled(o, net, p, q)
  {
    assert p.log <= counted.log;
    assert q.log[..|p.log| + 1] == counted.log && q.log[|p.log|] == counted.log[|p.log|];
    assert Follows(o, net, q, |p.log|);
  }

  lemma {:induction false} RunRuled(o: Options, net: Network, p: Progress)
    requires Errors(p.log) == p.reconnections
    ensures var q := Run(o, net, p);
            && Ruled(o, net, p, q) && |p.log| < |q.log| && q.log[|p.log|] == Enter
            && (q.outcome == Returned ==> q.log[|q.log| - 1] == Leave)
    decreases Left(o, p.reconnections), 1
  {
    var entered := p.(attempts := p.attempts + 1, log := p.log + [Enter]);
    ErrorsAppend(p.log, Enter);
    BodyRuled(o, net, net(p.attempts), entered);
    var q := Body(o, net, net(p.attempts), entered);
    if q.outcome == Returned {
      LeaveRuled(o, net, entered, q);
    }
  }

  lemma LeaveRuled(o: Options, net: Network, p: Progress, q: Progress)
    requires Ruled(o, net, p, q) && q.outcome == Returned
    ensures Ruled(o, net, p, q.(log := q.log + [Leave]))
  {
    ErrorsAppend(q.log, Leave);
    var r := q.(log := q.log + [Leave]);
    forall i | |p.log| <= i < |r.log|
      ensures Follows(o, net, r, i)
    {
      if i < |q.log| {
        assert Follows(o, net, q, i) && r.log[..i + 1] == q.log[..i + 1];
      }
    }
  }

  lemma {:induction false} BodyRuled(o: Options, net: Network, a: Attempt, p: Progress)
    requires Errors(p.log) == p.reconnections && p.attempts > 0 && a == net(p.attempts - 1)
    ensures Ruled(o, net, p, Body(o, net, a, p))
    decreases Left(o, p.reconnections), 1, 0
  {
    if a.connecting.ConnectFails? {
      HandleRuled(o, net, a.connecting.code, p);
      var q := Handle(o, net, a.connecting.code, p);
      if q.outcome == Threw && a.connecting.guarded {
        var r := q.(outcome := Returned);
        HandleRuled(o, net, FAIL, r);
        RuledOn(o, net, p, q, Handle(o, net, FAIL, r));
      }
    } else if Settle(a.blockExchange).ErrorHandler? {
      HandleRuled(o, net, Settle(a.blockExchange).code, p);
    } else {
      SendRuled(o, net, a, p);
    }
  }

  /** After an exception the log goes on. */
  lemma RuledOn(o: Options, net: Network, p: Progress, q: Progress, r: Progress)
    requires Ruled(o, net, p, q) && q.outcome == Threw && Errors(q.log) == q.reconnections
    requires Ruled(o, net, q.(outcome := Returned), r)
    ensures Ruled(o, net, p, r)
  {
    forall i | |p.log| <= i < |r.log|
      ensures Follows(o, net, r, i)
    {
      if i < |q.log| {
        assert Follows(o, net, q, i) && r.log[i] == q.log[i];
        assert r.log[..i + 1] == q.log[..i + 1];
        assert i + 1 < |q.log| ==> r.log[i + 1] == q.log[i + 1];
      }
    }
  }

  lemma {:induction false} SendRuled(o: Options, net: Network, a: Attempt, p: Progress)
    requires Errors(p.log) == p.reconnections && p.attempts > 0 && a == net(p.attempts - 1)
    requires a.connecting == Connected && !Settle(a.blockExchange).ErrorHandler?
    ensures Ruled(o, net, p, Body(o, net, a, p))
    decreases Left(o, p.reconnections), 1, 0, 0
  {
    if !(IsReady(a) && !o.test) {
      EndsUnsent(o, net, a, p);
      ErrorsAppend(p.log, BodyPrinted);
    } else {
      EndsSent(o, net, a, p);
      var sent := p.(log := p.log + [Sent(a.executed)]);
      ErrorsAppend(p.log, Sent(a.executed));
      if Settle(a.send).ErrorHandler? {
        HandleRuled(o, net, Settle(a.send).code, sent);
        AfterSending(o, net, p, sent, Handle(o, net, Settle(a.send).code, sent));
      } else {
        AnsweredRuled(o, net, a, p, Body(o, net, a, p));
      }
    }
  }

  lemma AfterSending(o: Options, net: Network, p: Progress, sent: Progress, q: Progress)
    requires p.log <= sent.log && |sent.log| == |p.log| + 1 && sent.log[|p.log|].Sent?
    requires sent.reconnections == p.reconnections && Errors(sent.log) == Errors(p.log)
    requires Ruled(o, net, sent, q)
    ensures Ruled(o, net, p, q)
  {
    assert q.log[|p.log|] == sent.log[|p.log|];
  }

  lemma AnsweredRuled(o: Options, net: Network, a: Attempt, p: Progress, q: Progress)
    requires p.attempts > 0 && a == net(p.attempts - 1)
    requires var log := p.log + [Sent(a.executed)];
             q == p.(outcome := Returned, log := if HasValue(a.send) then log + [Acknowledged] else log)
    ensures Ruled(o, net, p, q)
  {
    var sent := p.(outcome := Returned, log := p.log + [Sent(a.executed)]);
    ErrorsAppend(p.log, Sent(a.executed));
    assert Ruled(o, net, p, sent);
    if HasValue(a.send) {
      AcknowledgedRuled(o, net, p, sent);
    }
  }

  lemma AcknowledgedRuled(o: Options, net: Network, p: Progress, sent: Progress)
    requires sent.attempts > 0 && sent.outcome == Returned
    requires sent.log == p.log + [Sent(net(sent.attempts - 1).executed)] && Errors(sent.log) == Errors(p.log)
    requires sent.reconnections == p.reconnections
    ensures Ruled(o, net, p, sent.(log := sent.log + [Acknowledged]))
  {
    ErrorsAppend(sent.log, Acknowledged);
    var q := sent.(log := sent.log + [Acknowledged]);
    assert q.log[|p.log|] == sent.log[|p.log|] && q.log[|p.log| + 1] == Acknowledged;
  }

  /** Main result, for all networks: an error at the limit or in test mode ends the tool, and nothing
    * else makes it exit; after any other error the next attempt begins if it is a FAIL, and the run
    * returns if it is not; what is acknowledged has just been sent, by the last attempt; and a body is
    * printed in test mode only. */
  lemma FollowsExactly(o: Options, net: Network)
    ensures var q := RunTool(o, net);
            && (forall i :: 0 <= i < |q.log| ==> Follows(o, net, q, i))
            && (q.outcome == Exited <==> q.log != [] && q.log[|q.log| - 1].Error?)
            && (q.outcome == Returned <==> q.log != [] && q.log[|q.log| - 1] == Leave)
  {
    RunRuled(o, net, FRESH);
    var q := RunTool(o, net);
    assert Follows(o, net, q, |q.log| - 1);
  }

  // ---------- exceptions ----------

  predicate Guarded(a: Attempt) {
    a.connecting.ConnectFails? && a.connecting.guarded
  }

  /** From `p` to `q` only the last attempt may raise an exception, which then goes through. */
  ghost predicate Uncaught(net: Network, p: Progress, q: Progress) {
    && p.attempts <= q.attempts
    && (forall k :: p.attempts <= k < q.attempts - 1 ==> !Raises(net(k)))
    && (q.outcome == Threw <==> q.attempts > 0 && Raises(net(q.attempts - 1)))
  }

  lemma {:induction false} HandleUncaught(o: Options, net: Network, code: ErrorCode, p: Progress)
    requires (forall k :: !Guarded(net(k))) && p.attempts > 0 && !Raises(net(p.attempts - 1))
    ensures Uncaught(net, p, Handle(o, net, code, p))
    decreases Left(o, p.reconnections), 0
  {
    var counted := p.(outcome := Returned, reconnections := p.reconnections + 1, log := p.log + [Error(code)]);
    if counted.reconnections < o.reconnections && !o.test && code == FAIL {
      RunUncaught(o, net, counted);
    }
  }

  lemma {:induction false} RunUncaught(o: Options, net: Network, p: Progress)
    requires forall k :: !Guarded(net(k))
    ensures Uncaught(net, p, Run(o, net, p)) && p.attempts < Run(o, net, p).attempts
    decreases Left(o, p.reconnections), 1
  {
    BodyUncaught(o, net, net(p.attempts), p.(attempts := p.attempts + 1, log := p.log + [Enter]));
  }

  lemma {:induction false} BodyUncaught(o: Options, net: Network, a: Attempt, p: Progress)
    requires (forall k :: !Guarded(net(k))) && p.attempts > 0 && a == net(p.attempts - 1)
    ensures var q := Body(o, net, a, p);
            && Uncaught(net, p, q)
            && (p.attempts < q.attempts ==> !Raises(a))
    decreases Left(o, p.reconnections), 1, 0
  {
    SettlesExactly(a.blockExchange);
    if a.connecting.ConnectFails? {
      assert !Guarded(net(p.attempts - 1));
      HandleUncaught(o, net, a.connecting.code, p);
    } else if Settle(a.blockExchange).ErrorHandler? {
      HandleUncaught(o, net, Settle(a.blockExchange).code, p);
    } else if IsReady(a) && !o.test {
      EndsSent(o, net, a, p);
      if Settle(a.send).ErrorHandler? {
        HandleUncaught(o, net, Settle(a.send).code, p.(log := p.log + [Sent(a.executed)]));
      }
    } else {
      EndsUnsent(o, net, a, p);
    }
  }

  /** Where no failure to connect is reported from inside the try block, an exception goes through at
    * once: it ends the tool, and nothing else does so with an exception. */
  lemma ExceptionsGoThrough(o: Options, net: Network)
    requires forall k :: !Guarded(net(k))
    ensures var q := RunTool(o, net);
            && q.attempts > 0 && (q.outcome == Threw <==> Raises(net(q.attempts - 1)))
            && forall k: nat :: k < q.attempts - 1 ==> !Raises(net(k))
  {
    RunUncaught(o, net, FRESH);
  }

  /** The first attempt fails to connect, the second one throws. */
  function Throwing(guarded: bool): Network {
    (k: nat) =>
      if k == 0 then Attempt(ConnectFails(FAIL, guarded), WriteFails, BlockId, Built, WriteFails, false)
      else Attempt(Connected, Replied(Reply(true, true, true)), WrongType, Built, WriteFails, false)
  }

  /** The concrete case in which the try block of `connect` decides: with it the exception becomes one
    * more FAIL, and the tool exits at the limit; without it the exception goes through. */
  lemma GuardDecides(guarded: bool)
    ensures var q := RunTool(Options(2, false), Throwing(guarded));
            && q.outcome == (if guarded then Exited else Threw)
            && q.log == [Enter, Error(FAIL), Enter] + if guarded then [Error(FAIL)] else []
  {
    var o, net := Options(2, false), Throwing(guarded);
    var p := Progress(Returned, 1, 0, [Enter]);
    assert [] + [Enter] == [Enter];
    assert FRESH.(attempts := FRESH.attempts + 1, log := FRESH.log + [Enter]) == p;
    var counted := Progress(Returned, 1, 1, [Enter, Error(FAIL)]);
    var threw := Progress(Threw, 2, 1, [Enter, Error(FAIL), Enter]);
    assert Run(o, net, counted) == threw by {
      var entered := counted.(attempts := 2, log := counted.log + [Enter]);
      assert Body(o, net, net(1), entered) == entered.(outcome := Threw);
    }
    assert Handle(o, net, FAIL, p) == threw by {
      assert p.log + [Error(FAIL)] == counted.log;
    }
    assert Handle(o, net, FAIL, threw.(outcome := Returned)) == Progress(Exited, 2, 2, threw.log + [Error(FAIL)]);
    assert Body(o, net, net(0), p).outcome == if guarded then Exited else Threw;
  }
}
