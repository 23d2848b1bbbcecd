/** The retry driver of the transfer tool: `do_request` and the error handler that re-enters it
  * from inside the failing call. */
module Transfer {
  import opened Messages

  /** How connecting ends.  A failure that is reported from inside the try block of `connect` is
    * `guarded`: an exception of the handler is caught there, and reported once more. */
  datatype Connecting = Connected | ConnectFails(code: ErrorCode, guarded: bool)

  /** What becomes of the block id once its request has returned a value. */
  datatype Block = BlockId | EmptyResult | WrongType

  /** What becomes of the transaction: no body is built, its body can be written out, or writing it out
    * throws, which nothing around it catches. */
  datatype Transaction = NotBuilt | Built | Unwritable

  /** What the network and the libraries do in one run of do_request.  `executed` says whether the
    * server executes the transfer, whatever the client then hears of it. */
  datatype Attempt = Attempt(
    connecting: Connecting,
    blockExchange: Written,
    block: Block,
    transaction: Transaction,
    send: Written,
    executed: bool)
  {
    /** Executed, and answered with a body that does not parse. */
    predicate AnswerUnreadable() { executed && Settle(send) == ErrorHandler(FAIL) }
  }

  datatype Event =
    | Enter                    // do_request starts
    | Leave                    // do_request returns
    | Error(code: ErrorCode)   // the error handler is called
    | Sent(delivered: bool)    // a transfer is sent
    | Acknowledged             // "Send transfer: " is printed
    | BodyPrinted              // only the request body is printed (test mode)

  datatype Outcome = Returned | Exited | Threw

  /** `attempts` runs of do_request have started, `reconnections` is the handler's counter. */
  datatype Progress = Progress(outcome: Outcome, attempts: nat, reconnections: int, log: seq<Event>)

  datatype Options = Options(reconnections: int, test: bool)

  type Network = nat -> Attempt

  function Left(o: Options, reconnections: int): nat {
    if o.reconnections > reconnections then o.reconnections - reconnections else 0
  }

  /** The error handler, after `log`. */
  function Handle(o: Options, net: Network, code: ErrorCode, p: Progress): (q: Progress)
    ensures q.reconnections > p.reconnections
    decreases Left(o, p.reconnections), 0
  {
    var counted := p.(outcome := Returned, reconnections := p.reconnections + 1, log := p.log + [Error(code)]);
    if counted.reconnections >= o.reconnections || o.test then counted.(outcome := Exited)
    else if code == FAIL then Run(o, net, counted)
    else counted
  }

  /** do_request, from progress `p`. */
  function Run(o: Options, net: Network, p: Progress): (q: Progress)
    ensures q.reconnections >= p.reconnections
    decreases Left(o, p.reconnections), 1
  {
    var a := net(p.attempts);
    var q := Body(o, net, a, p.(attempts := p.attempts + 1, log := p.log + [Enter]));
    if q.outcome == Returned then q.(log := q.log + [Leave]) else q
  }

  function Body(o: Options, net: Network, a: Attempt, p: Progress): (q: Progress)
    ensures q.reconnections >= p.reconnections
    decreases Left(o, p.reconnections), 1, 0
  {
    match a.connecting
    case ConnectFails(code, guarded) =>
      var q := Handle(o, net, code, p);
      if q.outcome == Threw && guarded then Handle(o, net, FAIL, q.(outcome := Returned)) else q
    case Connected =>
      match Settle(a.blockExchange)
      case ResponseHandler => p.(outcome := Returned)
      case ErrorHandler(code) => Handle(o, net, code, p)
      case GotValue =>
        if a.block == WrongType then p.(outcome := Threw)
        else if a.block == EmptyResult || a.transaction == NotBuilt then p.(outcome := Returned)
        else if a.transaction == Unwritable then p.(outcome := Threw)
        else if o.test then p.(outcome := Returned, log := p.log + [BodyPrinted])
        else
          var sent := p.(log := p.log + [Sent(a.executed)]);
          match Settle(a.send)
          case GotValue => sent.(outcome := Returned, log := sent.log + [Acknowledged])
          case ResponseHandler => sent.(outcome := Returned)
          case ErrorHandler(code) => Handle(o, net, code, sent)
  }

  const FRESH := Progress(Returned, 0, 0, [])

  /** A whole run of the tool. */
  function RunTool(o: Options, net: Network): Progress {
    Run(o, net, FRESH)
  }

  // ---------- the driver as written ----------

  class Driver {
    const options: Options
    const network: Network
    var attempts: nat
    var reconnections: int
    var log: seq<Event>

    constructor (options: Options, network: Network)
      ensures this.options == options && this.network == network
      ensures attempts == 0 && reconnections == 0 && log == []
    {
      this.options := options;
      this.network := network;
      attempts, reconnections, log := 0, 0, [];
    }

    function View(outcome: Outcome): Progress
      reads this
    {
      Progress(outcome, attempts, reconnections, log)
    }

    method DoRequest() returns (outcome: Outcome)
      modifies this
      ensures View(outcome) == Run(options, network, old(View(Returned)))
      decreases Left(options, reconnections), 1
    {
      var a := network(attempts);
      attempts := attempts + 1;
      log := log + [Enter];
      match a.connecting {
        case ConnectFails(code, guarded) =>
          outcome := HandleError(code);
          if outcome == Threw && guarded {
            outcome := HandleError(FAIL);
          }
        case Connected =>
          match Settle(a.blockExchange) {
            case ResponseHandler => outcome := Returned;
            case ErrorHandler(code) => outcome := HandleError(code);
            case GotValue =>
              if a.block == WrongType {
                return Threw;
              }
              outcome := Returned;
              if a.block == BlockId && a.transaction == Unwritable {
                return Threw;
              }
              if a.block == BlockId && a.transaction == Built {
                outcome := SendTransfer(a);
              }
          }
      }
      if outcome == Returned {
        log := log + [Leave];
      }
    }

    /** The part of do_request that runs once the body is built. */
    method SendTransfer(a: Attempt) returns (outcome: Outcome)
      requires a.connecting == Connected && Settle(a.blockExchange) == GotValue
      requires a.block == BlockId && a.transaction == Built
      modifies this
      ensures View(outcome) == Body(options, network, a, old(View(Returned)))
      decreases Left(options, reconnections), 1, 0
    {
      outcome := Returned;
      if options.test {
        log := log + [BodyPrinted];
        return;
      }
      log := log + [Sent(a.executed)];
      match Settle(a.send)
      case GotValue => log := log + [Acknowledged];
      case ResponseHandler =>
      case ErrorHandler(code) => outcome := HandleError(code);
    }

    method HandleError(code: ErrorCode) returns (outcome: Outcome)
      modifies this
      ensures View(outcome) == Handle(options, network, code, old(View(Returned)))
      ensures reconnections > old(reconnections)
      decreases Left(options, reconnections), 0
    {
      log := log + [Error(code)];
      reconnections := reconnections + 1;
      if reconnections >= options.reconnections || options.test {
        return Exited;
      }
      outcome := Returned;
      if code == FAIL {
        outcome := DoRequest();
      }
    }
  }

  // ---------- how often it tries ----------

  /** The counter as far as it leads to another attempt. */
  function Capped(o: Options, reconnections: int): int {
    if reconnections < o.reconnections then reconnections else o.reconnections - 1
  }

  function Submitted(log: seq<Event>): nat {
    if log == [] then 0 else (if log[0] == Sent(true) then 1 else 0) + Submitted(log[1..])
  }

  lemma {:induction false} SubmittedAppend(log: seq<Event>, e: Event)
    ensures Submitted(log + [e]) == Submitted(log) + if e == Sent(true) then 1 else 0
  {
    if log == [] {
      assert log + [e] == [e] && [e][1..] == [];
    } else {
      assert (log + [e])[1..] == log[1..] + [e];
      SubmittedAppend(log[1..], e);
    }
  }

  lemma {:induction false} HandleAttempts(o: Options, net: Network, code: ErrorCode, p: Progress)
    ensures var q := Handle(o, net, code, p);
            && p.attempts <= q.attempts
            && Submitted(q.log) - Submitted(p.log) <= q.attempts - p.attempts
            && (q.attempts > p.attempts ==> q.attempts - p.attempts <= Capped(o, q.reconnections) - p.reconnections)
    decreases Left(o, p.reconnections), 0
  {
    SubmittedAppend(p.log, Error(code));
    var counted := p.(outcome := Returned, reconnections := p.reconnections + 1, log := p.log + [Error(code)]);
    if counted.reconnections < o.reconnections && !o.test && code == FAIL {
      RunAttempts(o, net, counted);
    }
  }

  lemma {:induction false} RunAttempts(o: Options, net: Network, p: Progress)
    ensures var q := Run(o, net, p);
            && p.attempts < q.attempts
            && Submitted(q.log) - Submitted(p.log) <= q.attempts - p.attempts
            && (q.attempts > p.attempts + 1 ==> q.attempts - p.attempts <= 1 + Capped(o, q.reconnections) - p.reconnections)
    decreases Left(o, p.reconnections), 1
  {
    var a := net(p.attempts);
    var entered := p.(attempts := p.attempts + 1, log := p.log + [Enter]);
    SubmittedAppend(p.log, Enter);
    BodyAttempts(o, net, a, entered);
    SubmittedAppend(Body(o, net, a, entered).log, Leave);
  }

  lemma {:induction false} BodyAttempts(o: Options, net: Network, a: Attempt, p: Progress)
    ensures var q := Body(o, net, a, p);
            && p.attempts <= q.attempts
            && Submitted(q.log) - Submitted(p.log) <= q.attempts - p.attempts + 1
            && (q.attempts > p.attempts ==> q.attempts - p.attempts <= Capped(o, q.reconnections) - p.reconnections)
    decreases Left(o, p.reconnections), 1, 0
  {
    match a.connecting
    case ConnectFails(code, guarded) =>
      HandleAttempts(o, net, code, p);
      var q := Handle(o, net, code, p);
      if q.outcome == Threw && guarded {
        HandleAttempts(o, net, FAIL, q.(outcome := Returned));
      }
    case Connected =>
      if Settle(a.blockExchange).ErrorHandler? {
        HandleAttempts(o, net, Settle(a.blockExchange).code, p);
      } else {
        SendAttempts(o, net, a, p);
      }
  }

  lemma {:induction false} SendAttempts(o: Options, net: Network, a: Attempt, p: Progress)
    requires a.connecting == Connected && !Settle(a.blockExchange).ErrorHandler?
    ensures var q := Body(o, net, a, p);
            && p.attempts <= q.attempts
            && Submitted(q.log) - Submitted(p.log) <= q.attempts - p.attempts + 1
            && (q.attempts > p.attempts ==> q.attempts - p.attempts <= Capped(o, q.reconnections) - p.reconnections)
    decreases Left(o, p.reconnections), 1, 0, 0
  {
    var sent := p.(log := p.log + [Sent(a.executed)]);
    SubmittedAppend(p.log, BodyPrinted);
    SubmittedAppend(p.log, Sent(a.executed));
    SubmittedAppend(sent.log, Acknowledged);
    if Settle(a.send).ErrorHandler? {
      HandleAttempts(o, net, Settle(a.send).code, sent);
    }
  }

  /** Main result: however the network fails, at any stage, the tool stops after at most
    * max(1, opt_reconnections) runs of do_request, and sends at most one transfer in each. */
  lemma AttemptsBounded(o: Options, net: Network)
    ensures 1 <= RunTool(o, net).attempts <= if o.reconnections > 1 then o.reconnections else 1
    ensures Submitted(RunTool(o, net).log) <= RunTool(o, net).attempts
  {
    RunAttempts(o, net, FRESH);
  }

  // ---------- what --reconnections promises ----------

  /** How many new connections the option asks for when every connection fails. */
  function Promised(o: Options): nat {
    if o.reconnections > 0 then o.reconnections else 0
  }

  ghost predicate NeverConnects(net: Network) {
    forall k :: net(k).connecting.ConnectFails?
  }

  /** Connecting for the k-th time fails with FAIL. */
  predicate FailsAt(net: Network, k: nat) {
    net(k).connecting.ConnectFails? && net(k).connecting.code == FAIL
  }

  /** Of `limit` attempts from `first` on, `n` are made if any code but FAIL ends them. */
  ghost predicate StopsAfter(net: Network, first: nat, limit: nat, n: int) {
    && 1 <= n <= limit
    && (forall k :: first <= k < first + n - 1 ==> FailsAt(net, k))
    && (n == limit || !FailsAt(net, first + n - 1))
  }

  lemma {:induction false} RunNeverConnects(o: Options, net: Network, p: Progress)
    requires !o.test && NeverConnects(net)
    ensures var q, left := Run(o, net, p), Left(o, p.reconnections);
            && q.outcome != Threw
            && StopsAfter(net, p.attempts, if left > 1 then left else 1, q.attempts - p.attempts)
    decreases Left(o, p.reconnections)
  {
    var entered := p.(attempts := p.attempts + 1, log := p.log + [Enter]);
    var code := net(p.attempts).connecting.code;
    var counted := entered.(outcome := Returned, reconnections := p.reconnections + 1, log := entered.log + [Error(code)]);
    var q := Handle(o, net, code, entered);
    if counted.reconnections < o.reconnections && code == FAIL {
      RunNeverConnects(o, net, counted);
      assert q == Run(o, net, counted);
    }
    assert q.outcome != Threw && Body(o, net, net(p.attempts), entered) == q;
  }

  /** Main result: when no connection can be made, there are as many attempts as there are leading
    * FAILs and one more, but no more than max(1, opt_reconnections). */
  lemma AttemptsWithoutConnection(o: Options, net: Network)
    requires !o.test && NeverConnects(net)
    ensures StopsAfter(net, 0, if o.reconnections > 1 then o.reconnections else 1, RunTool(o, net).attempts)
  {
    RunNeverConnects(o, net, FRESH);
  }

  /** Main result: "as many new connections as the option says" is false.  The tool never makes more,
    * on any network; it makes as many exactly if the option says none; and one less, on a network
    * without connections, exactly if no earlier failure has another code than FAIL. */
  lemma ReconnectionsExactly(o: Options, net: Network)
    ensures RunTool(o, net).attempts - 1 <= Promised(o)
    ensures RunTool(o, net).attempts - 1 == Promised(o) <==> o.reconnections <= 0
    ensures NeverConnects(net) && !o.test && o.reconnections > 0 ==>
              (RunTool(o, net).attempts - 1 == Promised(o) - 1
               <==> forall k: nat :: k < o.reconnections - 1 ==> FailsAt(net, k))
  {
    AttemptsBounded(o, net);
    if NeverConnects(net) && !o.test && o.reconnections > 0 {
      AttemptsWithoutConnection(o, net);
      var n := RunTool(o, net).attempts;
      if n < o.reconnections {
        assert !FailsAt(net, n - 1);
      }
    }
  }

  /** A network whose connections all fail with the same code. */
  function Refusing(code: ErrorCode): Network {
    (k: nat) => Attempt(ConnectFails(code, true), WriteFails, BlockId, Built, WriteFails, false)
  }

  /** The concrete failures: a refused connection, reported as TIMEOUT, is never tried again, and
    * with FAIL the default of 3 means two new connections. */
  lemma RefusedIsNotRetried(o: Options)
    ensures RunTool(o, Refusing(TIMEOUT)).attempts == 1
    ensures o == Options(3, false) ==> RunTool(o, Refusing(FAIL)).attempts == 3
  {
    if o.test {
      TestModeOnce(o, Refusing(TIMEOUT));
    } else {
      AttemptsWithoutConnection(o, Refusing(TIMEOUT));
      AttemptsWithoutConnection(o, Refusing(FAIL));
      var n := RunTool(o, Refusing(TIMEOUT)).attempts;
      assert n > 1 ==> FailsAt(Refusing(TIMEOUT), 0);
    }
  }

  lemma TestModeOnce(o: Options, net: Network)
    requires o.test
    ensures RunTool(o, net).attempts == 1
  {
    var entered := FRESH.(attempts := FRESH.attempts + 1, log := FRESH.log + [Enter]);
    assert Body(o, net, net(FRESH.attempts), entered).attempts == 1;
  }

  // ---------- the exit status ----------

  /** main ends with status 0 whenever do_request returns. */
  predicate StatusIsZero(o: Options, net: Network) {
    RunTool(o, net).outcome == Returned
  }

  /** This attempt connects, gets its block id, builds a body, sends it, and gets a value back. */
  predicate Acknowledges(o: Options, a: Attempt) {
    && a.connecting == Connected
    && Settle(a.blockExchange) == GotValue && a.block == BlockId && a.transaction == Built
    && !o.test
    && Settle(a.send) == GotValue
  }

  /** How an attempt ends by itself: without a report, with a call of the error handler, or with an
    * exception. */
  datatype End = Silent | Reports(code: ErrorCode) | Throws

  function EndOf(o: Options, a: Attempt): End {
    match a.connecting
    case ConnectFails(code, _) => Reports(code)
    case Connected =>
      match Settle(a.blockExchange)
      case ResponseHandler => Silent
      case ErrorHandler(code) => Reports(code)
      case GotValue =>
        if a.block == WrongType then Throws
        else if a.block == EmptyResult || a.transaction == NotBuilt then Silent
        else if a.transaction == Unwritable then Throws
        else if o.test || !Settle(a.send).ErrorHandler? then Silent
        else Reports(Settle(a.send).code)
  }

  /** The last attempt ends without a report; or it reports an error that is neither tried again nor
    * the last one that is allowed. */
  predicate EndsWell(o: Options, a: Attempt, reconnections: int) {
    match EndOf(o, a)
    case Silent => true
    case Reports(code) => code != FAIL && !o.test && reconnections < o.reconnections
    case Throws => false
  }

  ghost predicate StatusRight(o: Options, net: Network, q: Progress) {
    && q.attempts > 0
    && (q.outcome == Returned <==> EndsWell(o, net(q.attempts - 1), q.reconnections))
    && (q.outcome == Threw ==> EndOf(o, net(q.attempts - 1)) == Throws)
  }

  lemma {:induction false} HandleStatus(o: Options, net: Network, code: ErrorCode, p: Progress)
    requires p.attempts > 0
    requires var end := EndOf(o, net(p.attempts - 1)); end == Reports(code) || (end == Throws && code == FAIL)
    ensures StatusRight(o, net, Handle(o, net, code, p))
    decreases Left(o, p.reconnections), 0
  {
    var counted := p.(outcome := Returned, reconnections := p.reconnections + 1, log := p.log + [Error(code)]);
    if counted.reconnections < o.reconnections && !o.test && code == FAIL {
      RunStatus(o, net, counted);
    }
  }

  lemma {:induction false} RunStatus(o: Options, net: Network, p: Progress)
    ensures StatusRight(o, net, Run(o, net, p))
    decreases Left(o, p.reconnections), 1
  {
    BodyStatus(o, net, net(p.attempts), p.(attempts := p.attempts + 1, log := p.log + [Enter]));
  }

  lemma {:induction false} BodyStatus(o: Options, net: Network, a: Attempt, p: Progress)
    requires p.attempts > 0 && a == net(p.attempts - 1)
    ensures StatusRight(o, net, Body(o, net, a, p))
    decreases Left(o, p.reconnections), 1, 0
  {
    match a.connecting
    case ConnectFails(code, guarded) =>
      HandleStatus(o, net, code, p);
      var q := Handle(o, net, code, p);
      if q.outcome == Threw && guarded {
        HandleStatus(o, net, FAIL, q.(outcome := Returned));
      }
    case Connected =>
      if EndOf(o, a).Reports? {
        var sent := if Settle(a.blockExchange).ErrorHandler? then p else p.(log := p.log + [Sent(a.executed)]);
        HandleStatus(o, net, EndOf(o, a).code, sent);
      }
  }

  /** Main result, for all networks: the status is 0 exactly if the last attempt of all ends without a
    * report, or reports an error other than FAIL before the limit, and not in test mode. */
  lemma StatusExactly(o: Options, net: Network)
    ensures var q := RunTool(o, net);
            q.attempts > 0 && (StatusIsZero(o, net) <==> EndsWell(o, net(q.attempts - 1), q.reconnections))
  {
    RunStatus(o, net, FRESH);
  }

  /** What an acknowledgement in the log says of the last attempt and of the outcome. */
  ghost predicate AcknowledgedRight(o: Options, net: Network, q: Progress) {
    && (Acknowledged in q.log <==> q.attempts > 0 && Acknowledges(o, net(q.attempts - 1)))
    && (Acknowledged in q.log ==> q.outcome == Returned)
  }

  lemma {:induction false} HandleAcknowledged(o: Options, net: Network, code: ErrorCode, p: Progress)
    requires AcknowledgedRight(o, net, p) && Acknowledged !in p.log
    ensures AcknowledgedRight(o, net, Handle(o, net, code, p))
    decreases Left(o, p.reconnections), 0
  {
    var counted := p.(outcome := Returned, reconnections := p.reconnections + 1, log := p.log + [Error(code)]);
    if counted.reconnections < o.reconnections && !o.test && code == FAIL {
      RunAcknowledged(o, net, counted);
    }
  }

  lemma {:induction false} RunAcknowledged(o: Options, net: Network, p: Progress)
    requires Acknowledged !in p.log
    ensures AcknowledgedRight(o, net, Run(o, net, p))
    decreases Left(o, p.reconnections), 1
  {
    BodyAcknowledged(o, net, net(p.attempts), p.(attempts := p.attempts + 1, log := p.log + [Enter]));
  }

  lemma {:induction false} BodyAcknowledged(o: Options, net: Network, a: Attempt, p: Progress)
    requires Acknowledged !in p.log && p.attempts > 0 && a == net(p.attempts - 1)
    ensures AcknowledgedRight(o, net, Body(o, net, a, p))
    decreases Left(o, p.reconnections), 1, 0
  {
    match a.connecting
    case ConnectFails(code, guarded) =>
      HandleAcknowledged(o, net, code, p);
      var q := Handle(o, net, code, p);
      if q.outcome == Threw && guarded {
        HandleAcknowledged(o, net, FAIL, q.(outcome := Returned));
      }
    case Connected =>
      var sent := p.(log := p.log + [Sent(a.executed)]);
      if Settle(a.blockExchange).ErrorHandler? {
        HandleAcknowledged(o, net, Settle(a.blockExchange).code, p);
      }
      if Settle(a.send).ErrorHandler? && !Acknowledges(o, a) {
        HandleAcknowledged(o, net, Settle(a.send).code, sent);
      }
  }

  /** Main result: the transfer is acknowledged exactly if the last attempt of all gets its value, and
    * then the status is 0. */
  lemma AcknowledgedExactly(o: Options, net: Network)
    ensures var q := RunTool(o, net);
            q.attempts > 0 && (Acknowledged in q.log <==> Acknowledges(o, net(q.attempts - 1)))
    ensures Acknowledged in RunTool(o, net).log ==> StatusIsZero(o, net)
  {
    AttemptsBounded(o, net);
    RunAcknowledged(o, net, FRESH);
  }

  /** The other direction fails under every option: with status 0 nothing need have been sent.  The
    * block id may be missing; or a connection times out while a retry would be allowed. */
  lemma StatusZeroProvesNothing(o: Options)
    ensures var a := Attempt(Connected, Replied(Reply(true, true, true)), EmptyResult, Built, WriteFails, false);
            StatusIsZero(o, (k: nat) => a) && RunTool(o, (k: nat) => a).log == [Enter, Leave]
    ensures !o.test && o.reconnections > 1 ==>
              && StatusIsZero(o, Refusing(TIMEOUT))
              && RunTool(o, Refusing(TIMEOUT)).log == [Enter, Error(TIMEOUT), Leave]
  {
    var entered := Progress(Returned, 1, 0, [Enter]);
    var a := Attempt(Connected, Replied(Reply(true, true, true)), EmptyResult, Built, WriteFails, false);
    assert Body(o, (k: nat) => a, a, entered) == entered;
    assert [] + [Enter] == [Enter];
    assert FRESH.(attempts := FRESH.attempts + 1, log := FRESH.log + [Enter]) == entered;
    if !o.test && o.reconnections > 1 {
      var net := Refusing(TIMEOUT);
      assert Handle(o, net, TIMEOUT, entered) == Progress(Returned, 1, 1, [Enter] + [Error(TIMEOUT)]);
      assert Body(o, net, net(0), entered) == Handle(o, net, TIMEOUT, entered);
    }
  }

  // ---------- how a run ends ----------

  /** No acknowledgement yet, and every error so far has led to another attempt. */
  ghost predicate Trying(log: seq<Event>) {
    forall j :: 0 <= j < |log| ==> log[j] != Acknowledged && (log[j].Error? ==> log[j].code == FAIL)
  }

  /** At most one event after the tries, and then only returns from the nested runs. */
  ghost predicate Ended(log: seq<Event>) {
    exists k :: 0 <= k <= |log| && Trying(log[..k]) && forall j :: k < j < |log| ==> log[j] == Leave
  }

  lemma TryingAppend(log: seq<Event>, e: Event)
    requires Trying(log)
    ensures e != Acknowledged && (e.Error? ==> e.code == FAIL) ==> Trying(log + [e])
    ensures Ended(log) && Ended(log + [e])
  {
    assert log[..|log|] == log;
    assert (log + [e])[..|log|] == log;
  }

  lemma EndedLeave(log: seq<Event>)
    requires Ended(log)
    ensures Ended(log + [Leave])
  {
    var k :| 0 <= k <= |log| && Trying(log[..k]) && forall j :: k < j < |log| ==> log[j] == Leave;
    assert (log + [Leave])[..k] == log[..k];
  }

  lemma {:induction false} HandleEnds(o: Options, net: Network, code: ErrorCode, p: Progress)
    requires Trying(p.log)
    ensures var q := Handle(o, net, code, p);
            Ended(q.log) && (q.outcome == Threw ==> Trying(q.log))
    decreases Left(o, p.reconnections), 0
  {
    TryingAppend(p.log, Error(code));
    var counted := p.(outcome := Returned, reconnections := p.reconnections + 1, log := p.log + [Error(code)]);
    if counted.reconnections < o.reconnections && !o.test && code == FAIL {
      RunEnds(o, net, counted);
    }
  }

  lemma {:induction false} RunEnds(o: Options, net: Network, p: Progress)
    requires Trying(p.log)
    ensures var q := Run(o, net, p);
            Ended(q.log) && (q.outcome == Threw ==> Trying(q.log))
    decreases Left(o, p.reconnections), 1
  {
    var a := net(p.attempts);
    var entered := p.(attempts := p.attempts + 1, log := p.log + [Enter]);
    TryingAppend(p.log, Enter);
    BodyEnds(o, net, a, entered);
    EndedLeave(Body(o, net, a, entered).log);
  }

  lemma {:induction false} BodyEnds(o: Options, net: Network, a: Attempt, p: Progress)
    requires Trying(p.log)
    ensures var q := Body(o, net, a, p);
            Ended(q.log) && (q.outcome == Threw ==> Trying(q.log))
    decreases Left(o, p.reconnections), 1, 0
  {
    TryingAppend(p.log, Leave);
    match a.connecting
    case ConnectFails(code, guarded) =>
      HandleEnds(o, net, code, p);
      var q := Handle(o, net, code, p);
      if q.outcome == Threw && guarded {
        HandleEnds(o, net, FAIL, q.(outcome := Returned));
      }
    case Connected =>
      var sent := p.(log := p.log + [Sent(a.executed)]);
      TryingAppend(p.log, Sent(a.executed));
      TryingAppend(p.log, BodyPrinted);
      TryingAppend(sent.log, Acknowledged);
      if Settle(a.blockExchange).ErrorHandler? {
        HandleEnds(o, net, Settle(a.blockExchange).code, p);
      }
      if Settle(a.send).ErrorHandler? {
        HandleEnds(o, net, Settle(a.send).code, sent);
      }
  }

  /** Main result: an acknowledgement, and any error other than FAIL, comes after every attempt and
    * is followed by nothing but returns.  So at most one send is acknowledged, only at the innermost
    * level of the nested runs; and a send lost to a timeout is never repeated. */
  lemma NothingAfterTheEnd(o: Options, net: Network, i: nat, j: nat)
    requires var log := RunTool(o, net).log;
             i < j < |log| && (log[i] == Acknowledged || (log[i].Error? && log[i].code != FAIL))
    ensures RunTool(o, net).log[j] == Leave
  {
    RunEnds(o, net, FRESH);
    var log := RunTool(o, net).log;
    var k :| 0 <= k <= |log| && Trying(log[..k]) && forall j :: k < j < |log| ==> log[j] == Leave;
    assert forall m :: 0 <= m < k ==> log[m] == log[..k][m];
  }

  // ---------- how often a transfer is executed ----------

  lemma {:induction false} HandleSubmitsOnce(o: Options, net: Network, code: ErrorCode, p: Progress)
    requires forall k :: !net(k).AnswerUnreadable()
    requires Submitted(p.log) == 0 || (code != FAIL && Submitted(p.log) == 1)
    ensures var q := Handle(o, net, code, p);
            Submitted(q.log) <= 1 && (q.outcome == Threw ==> Submitted(q.log) == 0)
    decreases Left(o, p.reconnections), 0
  {
    SubmittedAppend(p.log, Error(code));
    var counted := p.(outcome := Returned, reconnections := p.reconnections + 1, log := p.log + [Error(code)]);
    if counted.reconnections < o.reconnections && !o.test && code == FAIL {
      RunSubmitsOnce(o, net, counted);
    }
  }

  lemma {:induction false} RunSubmitsOnce(o: Options, net: Network, p: Progress)
    requires forall k :: !net(k).AnswerUnreadable()
    requires Submitted(p.log) == 0
    ensures var q := Run(o, net, p);
            Submitted(q.log) <= 1 && (q.outcome == Threw ==> Submitted(q.log) == 0)
    decreases Left(o, p.reconnections), 1
  {
    var a := net(p.attempts);
    var entered := p.(attempts := p.attempts + 1, log := p.log + [Enter]);
    SubmittedAppend(p.log, Enter);
    BodySubmitsOnce(o, net, a, entered);
    SubmittedAppend(Body(o, net, a, entered).log, Leave);
  }

  lemma {:induction false} BodySubmitsOnce(o: Options, net: Network, a: Attempt, p: Progress)
    requires (forall k :: !net(k).AnswerUnreadable()) && !a.AnswerUnreadable()
    requires Submitted(p.log) == 0
    ensures var q := Body(o, net, a, p);
            Submitted(q.log) <= 1 && (q.outcome == Threw ==> Submitted(q.log) == 0)
    decreases Left(o, p.reconnections), 1, 0
  {
    match a.connecting
    case ConnectFails(code, guarded) =>
      HandleSubmitsOnce(o, net, code, p);
      var q := Handle(o, net, code, p);
      if q.outcome == Threw && guarded {
        HandleSubmitsOnce(o, net, FAIL, q.(outcome := Returned));
      }
    case Connected =>
      if Settle(a.blockExchange).ErrorHandler? {
        HandleSubmitsOnce(o, net, Settle(a.blockExchange).code, p);
      } else {
        SendSubmitsOnce(o, net, a, p);
      }
  }

  lemma {:induction false} SendSubmitsOnce(o: Options, net: Network, a: Attempt, p: Progress)
    requires (forall k :: !net(k).AnswerUnreadable()) && !a.AnswerUnreadable()
    requires Submitted(p.log) == 0 && a.connecting == Connected && !Settle(a.blockExchange).ErrorHandler?
    ensures var q := Body(o, net, a, p);
            Submitted(q.log) <= 1 && (q.outcome == Threw ==> Submitted(q.log) == 0)
    decreases Left(o, p.reconnections), 1, 0, 0
  {
    var sent := p.(log := p.log + [Sent(a.executed)]);
    SubmittedAppend(p.log, BodyPrinted);
    SubmittedAppend(p.log, Sent(a.executed));
    SubmittedAppend(sent.log, Acknowledged);
    if Settle(a.send).ErrorHandler? {
      HandleSubmitsOnce(o, net, Settle(a.send).code, sent);
    }
  }

  /** If every answer to an executed transfer parses, at most one transfer is executed. */
  lemma ReadableAnswersSubmitOnce(o: Options, net: Network)
    requires forall k :: !net(k).AnswerUnreadable()
    ensures Submitted(RunTool(o, net).log) <= 1
  {
    RunSubmitsOnce(o, net, FRESH);
  }

  /** A server that executes the transfer and answers with status 200 and a body that is not JSON. */
  const UNREADABLE := Attempt(
    Connected, Replied(Reply(true, true, true)), BlockId, Built, Replied(Reply(true, false, false)), true)

  /** One attempt with such a server, and its error. */
  function Unreadable(p: Progress): Progress {
    Progress(Returned, p.attempts + 1, p.reconnections + 1, p.log + [Enter] + [Sent(true)] + [Error(FAIL)])
  }

  lemma UnreadableSubmits(p: Progress)
    ensures Submitted(Unreadable(p).log) == Submitted(p.log) + 1
  {
    SubmittedAppend(p.log, Enter);
    SubmittedAppend(p.log + [Enter], Sent(true));
    SubmittedAppend(p.log + [Enter] + [Sent(true)], Error(FAIL));
  }

  lemma UnreadableStep(o: Options, p: Progress)
    requires !o.test
    ensures var net: Network := (k: nat) => UNREADABLE;
            var next := if p.reconnections + 1 < o.reconnections then Run(o, net, Unreadable(p)) else Unreadable(p);
            Submitted(Run(o, net, p).log) == Submitted(next.log)
  {
    var net: Network := (k: nat) => UNREADABLE;
    var entered := p.(attempts := p.attempts + 1, log := p.log + [Enter]);
    var sent := entered.(log := entered.log + [Sent(true)]);
    var q := Handle(o, net, FAIL, sent);
    assert Body(o, net, UNREADABLE, entered) == q;
    SubmittedAppend(q.log, Leave);
  }

  /** Such a server executes the transfer once for every attempt there is. */
  lemma {:induction false} UnreadableAnswersRepeat(o: Options, p: Progress)
    requires !o.test
    ensures var q := Run(o, (k: nat) => UNREADABLE, p);
            Submitted(q.log) == Submitted(p.log) + if Left(o, p.reconnections) > 1 then Left(o, p.reconnections) else 1
    decreases Left(o, p.reconnections)
  {
    UnreadableStep(o, p);
    UnreadableSubmits(p);
    if p.reconnections + 1 < o.reconnections {
      UnreadableAnswersRepeat(o, Unreadable(p));
    }
  }

  lemma TestModeHandles(o: Options, net: Network, code: ErrorCode, p: Progress)
    requires o.test
    ensures Handle(o, net, code, p).outcome == Exited
    ensures Submitted(Handle(o, net, code, p).log) == Submitted(p.log)
  {
    SubmittedAppend(p.log, Error(code));
  }

  lemma TestModeBody(o: Options, net: Network, a: Attempt, p: Progress)
    requires o.test
    ensures Submitted(Body(o, net, a, p).log) == Submitted(p.log)
  {
    SubmittedAppend(p.log, BodyPrinted);
    match a.connecting
    case ConnectFails(code, _) => TestModeHandles(o, net, code, p);
    case Connected =>
      if Settle(a.blockExchange).ErrorHandler? {
        TestModeHandles(o, net, Settle(a.blockExchange).code, p);
      }
  }

  lemma TestModeSendsNothing(o: Options, net: Network)
    requires o.test
    ensures Submitted(RunTool(o, net).log) == 0
  {
    var entered := FRESH.(attempts := FRESH.attempts + 1, log := FRESH.log + [Enter]);
    SubmittedAppend(FRESH.log, Enter);
    TestModeBody(o, net, net(FRESH.attempts), entered);
    SubmittedAppend(Body(o, net, net(FRESH.attempts), entered).log, Leave);
  }

  /** Main result: "at most one transfer is executed" is false of the retrying tool.  It holds on
    * every network exactly in test mode or when no reconnection is allowed. */
  lemma ExecutedOnceExactly(o: Options)
    ensures (forall net: Network :: Submitted(RunTool(o, net).log) <= 1) <==> o.test || o.reconnections <= 1
  {
    if o.test {
      forall net: Network ensures Submitted(RunTool(o, net).log) <= 1 {
        TestModeSendsNothing(o, net);
      }
    } else if o.reconnections <= 1 {
      forall net: Network ensures Submitted(RunTool(o, net).log) <= 1 {
        AttemptsBounded(o, net);
      }
    } else {
      var net: Network := (k: nat) => UNREADABLE;
      UnreadableAnswersRepeat(o, FRESH);
      assert Submitted(RunTool(o, net).log) > 1;
    }
  }
}
