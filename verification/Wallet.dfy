/** The retry driver of the wallet tool, whose handler exits on every error but FAIL. */
module Wallet {
  import opened Messages

  /** What happens in one run of do_request: connecting fails; or a call is made, during which the
    * error handler is called with each of `errors`, and which yields a value or nothing. */
  datatype Attempt =
    | ConnectFails(code: ErrorCode)
    | Called(errors: seq<ErrorCode>, hasValue: bool)

  /** Each event carries the number of the attempt that it belongs to. */
  datatype Event =
    | ConnectError(attempt: nat, code: ErrorCode)
    | CallError(attempt: nat, code: ErrorCode)
    | Printed(attempt: nat)          // the result is printed
    | NoValue(attempt: nat)          // "response does not have any result" is printed

  /** Either do_request returns, or the process has exited with -1. */
  datatype Outcome = Returned | Exited

  datatype Progress = Progress(outcome: Outcome, attempts: nat, reconnections: int, log: seq<Event>)

  type Network = nat -> Attempt

  function Left(limit: int, reconnections: int): nat {
    if limit > reconnections then limit - reconnections else 0
  }

  /** The error handler; the event of its call is already in the log. */
  function Handle(limit: int, net: Network, code: ErrorCode, p: Progress): (q: Progress)
    ensures q.outcome == Returned ==> q.reconnections > p.reconnections && q.attempts > p.attempts
    ensures q.reconnections >= p.reconnections
    decreases Left(limit, p.reconnections), 0, 0
  {
    if code != FAIL then p.(outcome := Exited)
    else if p.reconnections + 1 >= limit then p.(outcome := Exited, reconnections := p.reconnections + 1)
    else Run(limit, net, p.(reconnections := p.reconnections + 1))
  }

  function Run(limit: int, net: Network, p: Progress): (q: Progress)
    ensures q.reconnections >= p.reconnections && q.attempts > p.attempts
    decreases Left(limit, p.reconnections), 2, 0
  {
    var entered := p.(attempts := p.attempts + 1);
    match net(p.attempts)
    case ConnectFails(code) => Handle(limit, net, code, entered.(log := p.log + [ConnectError(p.attempts, code)]))
    case Called(errors, hasValue) =>
      var q := HandleAll(limit, net, p.attempts, errors, entered);
      if q.outcome == Exited then q
      else if !hasValue then q.(outcome := Exited, log := q.log + [NoValue(p.attempts)])
      else q.(log := q.log + [Printed(p.attempts)])
  }

  /** The errors that the k-th attempt reports during its call. */
  function HandleAll(limit: int, net: Network, k: nat, errors: seq<ErrorCode>, p: Progress): (q: Progress)
    ensures q.reconnections >= p.reconnections && q.attempts >= p.attempts
    decreases Left(limit, p.reconnections), 1, |errors|
  {
    if errors == [] then p.(outcome := Returned) else
      var q := Handle(limit, net, errors[0], p.(log := p.log + [CallError(k, errors[0])]));
      if q.outcome == Exited then q else HandleAll(limit, net, k, errors[1..], q)
  }

  const FRESH := Progress(Returned, 0, 0, [])

  function RunTool(limit: int, net: Network): Progress {
    Run(limit, net, FRESH)
  }

  /** The exit status of the process: main ends with exit(0) after do_request returns. */
  function Status(limit: int, net: Network): int {
    if RunTool(limit, net).outcome == Returned then 0 else -1
  }

  class Driver {
    const limit: int
    const network: Network
    var attempts: nat
    var reconnections: int
    var log: seq<Event>

    constructor (limit: int, network: Network)
      ensures this.limit == limit && this.network == network && attempts == 0 && reconnections == 0 && log == []
    {
      this.limit := limit;
      this.network := network;
      attempts, reconnections, log := 0, 0, [];
    }

    function View(outcome: Outcome): Progress
      reads this
    {
      Progress(outcome, attempts, reconnections, log)
    }

    method DoRequest() returns (outcome: Outcome)
      modifies this
      ensures View(outcome) == Run(limit, network, old(View(Returned)))
      decreases Left(limit, reconnections), 2, 0
    {
      var k := attempts;
      attempts := attempts + 1;
      match network(k) {
        case ConnectFails(code) =>
          log := log + [ConnectError(k, code)];
          outcome := HandleError(code);
        case Called(errors, hasValue) =>
          outcome := MakeCall(k, errors);
          if outcome == Exited {
            return;
          }
          if !hasValue {
            log := log + [NoValue(k)];
            return Exited;
          }
          log := log + [Printed(k)];
      }
    }

    method MakeCall(k: nat, errors: seq<ErrorCode>) returns (outcome: Outcome)
      modifies this
      ensures View(outcome) == HandleAll(limit, network, k, errors, old(View(Returned)))
      decreases Left(limit, reconnections), 1, |errors|
    {
      if errors == [] {
        return Returned;
      }
      log := log + [CallError(k, errors[0])];
      outcome := HandleError(errors[0]);
      if outcome == Returned {
        outcome := MakeCall(k, errors[1..]);
      }
    }

    method HandleError(code: ErrorCode) returns (outcome: Outcome)
      modifies this
      ensures View(outcome) == Handle(limit, network, code, old(View(Returned)))
      decreases Left(limit, reconnections), 0, 0
    {
      if code != FAIL {
        return Exited;
      }
      reconnections := reconnections + 1;
      if reconnections >= limit {
        return Exited;
      }
      outcome := DoRequest();
    }
  }

  // ---------- how often it tries ----------

  function Capped(limit: int, reconnections: int): int {
    if reconnections < limit then reconnections else limit - 1
  }

  lemma {:induction false} HandleAttempts(limit: int, net: Network, code: ErrorCode, p: Progress)
    ensures var q := Handle(limit, net, code, p);
            q.attempts > p.attempts ==> q.attempts - p.attempts <= Capped(limit, q.reconnections) - p.reconnections
    ensures Handle(limit, net, code, p).attempts >= p.attempts
    decreases Left(limit, p.reconnections), 0, 0
  {
    if code == FAIL && p.reconnections + 1 < limit {
      RunAttempts(limit, net, p.(reconnections := p.reconnections + 1));
    }
  }

  lemma {:induction false} RunAttempts(limit: int, net: Network, p: Progress)
    ensures var q := Run(limit, net, p);
            q.attempts > p.attempts + 1 ==> q.attempts - p.attempts <= 1 + Capped(limit, q.reconnections) - p.reconnections
    decreases Left(limit, p.reconnections), 2, 0
  {
    var entered := p.(attempts := p.attempts + 1);
    match net(p.attempts)
    case ConnectFails(code) => HandleAttempts(limit, net, code, entered.(log := p.log + [ConnectError(p.attempts, code)]));
    case Called(errors, _) => HandleAllAttempts(limit, net, p.attempts, errors, entered);
  }

  lemma {:induction false} HandleAllAttempts(limit: int, net: Network, k: nat, errors: seq<ErrorCode>, p: Progress)
    ensures var q := HandleAll(limit, net, k, errors, p);
            q.attempts > p.attempts ==> q.attempts - p.attempts <= Capped(limit, q.reconnections) - p.reconnections
    decreases Left(limit, p.reconnections), 1, |errors|
  {
    if errors != [] {
      var logged := p.(log := p.log + [CallError(k, errors[0])]);
      HandleAttempts(limit, net, errors[0], logged);
      var q := Handle(limit, net, errors[0], logged);
      if q.outcome == Returned {
        HandleAllAttempts(limit, net, k, errors[1..], q);
      }
    }
  }

  /** Main result: the runs of do_request form a tree, as a call can report several errors, but
    * there are never more than max(1, opt_reconnections) of them. */
  lemma AttemptsBounded(limit: int, net: Network)
    ensures 1 <= RunTool(limit, net).attempts <= if limit > 1 then limit else 1
  {
    RunAttempts(limit, net, FRESH);
  }

  // ---------- what --reconnections promises ----------

  /** How many new connections the option asks for when every connection fails. */
  function Promised(limit: int): nat {
    if limit > 0 then limit else 0
  }

  ghost predicate NeverConnects(net: Network) {
    forall k :: net(k).ConnectFails?
  }

  /** Of `limit` attempts from `first` on, `n` are made if any code but FAIL ends them. */
  ghost predicate StopsAfter(net: Network, first: nat, limit: nat, n: int) {
    && 1 <= n <= limit
    && (forall k :: first <= k < first + n - 1 ==> net(k) == ConnectFails(FAIL))
    && (n == limit || net(first + n - 1) != ConnectFails(FAIL))
  }

  lemma {:induction false} RunNeverConnects(limit: int, net: Network, p: Progress)
    requires NeverConnects(net)
    ensures var left := Left(limit, p.reconnections);
            StopsAfter(net, p.attempts, if left > 1 then left else 1, Run(limit, net, p).attempts - p.attempts)
    decreases Left(limit, p.reconnections)
  {
    var code := net(p.attempts).code;
    var logged := p.(attempts := p.attempts + 1, log := p.log + [ConnectError(p.attempts, code)]);
    if code == FAIL && p.reconnections + 1 < limit {
      RunNeverConnects(limit, net, logged.(reconnections := p.reconnections + 1));
    }
  }

  /** Main result: when no connection can be made, there are as many attempts as there are leading
    * FAILs and one more, but no more than max(1, opt_reconnections). */
  lemma AttemptsWithoutConnection(limit: int, net: Network)
    requires NeverConnects(net)
    ensures StopsAfter(net, 0, if limit > 1 then limit else 1, RunTool(limit, net).attempts)
  {
    RunNeverConnects(limit, net, FRESH);
  }

  /** Main result: "as many new connections as the option says" is false.  The tool never makes more,
    * on any network; it makes as many exactly if the option says none; and one less, on a network
    * without connections, exactly if no earlier failure has another code than FAIL. */
  lemma ReconnectionsExactly(limit: int, net: Network)
    ensures RunTool(limit, net).attempts - 1 <= Promised(limit)
    ensures RunTool(limit, net).attempts - 1 == Promised(limit) <==> limit <= 0
    ensures NeverConnects(net) && limit > 0 ==>
              (RunTool(limit, net).attempts - 1 == Promised(limit) - 1
               <==> forall k: nat :: k < limit - 1 ==> net(k) == ConnectFails(FAIL))
  {
    AttemptsBounded(limit, net);
    if NeverConnects(net) && limit > 0 {
      AttemptsWithoutConnection(limit, net);
      var n := RunTool(limit, net).attempts;
      if n < limit {
        assert net(n - 1) != ConnectFails(FAIL);
      }
    }
  }

  /** The concrete failures: a refused connection, reported as TIMEOUT, is never tried again, and
    * with FAIL the default of 3 means two new connections. */
  lemma RefusedIsNotRetried(limit: int)
    ensures RunTool(limit, (k: nat) => ConnectFails(TIMEOUT)).attempts == 1
    ensures RunTool(3, (k: nat) => ConnectFails(FAIL)).attempts == 3
  {
    AttemptsWithoutConnection(limit, (k: nat) => ConnectFails(TIMEOUT));
    AttemptsWithoutConnection(3, (k: nat) => ConnectFails(FAIL));
  }

  // ---------- the exit status ----------

  /** How many of the attempts from the m-th up to the n-th have connected. */
  function Connections(net: Network, m: nat, n: nat): nat {
    if m >= n then 0 else Connections(net, m, n - 1) + if net(n - 1).Called? then 1 else 0
  }

  lemma ConnectionsOne(net: Network, m: nat)
    ensures Connections(net, m, m + 1) == if net(m).Called? then 1 else 0
  {
    assert Connections(net, m, m) == 0;
  }

  lemma {:induction false} ConnectionsSplit(net: Network, m: nat, k: nat, n: nat)
    requires m <= k <= n
    ensures Connections(net, m, n) == Connections(net, m, k) + Connections(net, k, n)
    decreases n
  {
    if k < n {
      ConnectionsSplit(net, m, k, n - 1);
    }
  }

  function Prints(log: seq<Event>): nat {
    if log == [] then 0 else Prints(log[..|log| - 1]) + if log[|log| - 1].Printed? then 1 else 0
  }

  lemma PrintsAppend(log: seq<Event>, e: Event)
    ensures Prints(log + [e]) == Prints(log) + if e.Printed? then 1 else 0
  {
    assert (log + [e])[..|log|] == log;
  }

  /** From `p` to `q` each connection has printed at most once, and all have if nothing has exited. */
  ghost predicate Balanced(net: Network, p: Progress, q: Progress) {
    && p.attempts <= q.attempts
    && Prints(q.log) - Prints(p.log) <= Connections(net, p.attempts, q.attempts)
    && (q.outcome == Returned ==> Prints(q.log) - Prints(p.log) == Connections(net, p.attempts, q.attempts))
  }

  /** And nothing has exited exactly if there were connections and all have printed. */
  ghost predicate Decided(net: Network, p: Progress, q: Progress) {
    && Balanced(net, p, q)
    && (q.outcome == Returned <==> 0 < Connections(net, p.attempts, q.attempts) == Prints(q.log) - Prints(p.log))
  }

  lemma {:induction false} HandlePrints(limit: int, net: Network, code: ErrorCode, p: Progress)
    ensures Decided(net, p, Handle(limit, net, code, p))
    decreases Left(limit, p.reconnections), 0, 0
  {
    if code == FAIL && p.reconnections + 1 < limit {
      RunPrints(limit, net, p.(reconnections := p.reconnections + 1));
    }
  }

  lemma {:induction false} RunPrints(limit: int, net: Network, p: Progress)
    ensures Decided(net, p, Run(limit, net, p))
    decreases Left(limit, p.reconnections), 2, 0
  {
    if net(p.attempts).ConnectFails? {
      FailedRunPrints(limit, net, p);
    } else {
      CalledRunPrints(limit, net, p);
    }
  }

  lemma {:induction false} FailedRunPrints(limit: int, net: Network, p: Progress)
    requires net(p.attempts).ConnectFails?
    ensures Decided(net, p, Run(limit, net, p))
    decreases Left(limit, p.reconnections), 1, 0
  {
    var code := net(p.attempts).code;
    var logged := p.(attempts := p.attempts + 1, log := p.log + [ConnectError(p.attempts, code)]);
    var q := Run(limit, net, p);
    assert q == Handle(limit, net, code, logged);
    HandlePrints(limit, net, code, logged);
    PrintsAppend(p.log, ConnectError(p.attempts, code));
    ConnectionsFrom(net, p.attempts, q.attempts);
  }

  lemma {:induction false} CalledRunPrints(limit: int, net: Network, p: Progress)
    requires net(p.attempts).Called?
    ensures Decided(net, p, Run(limit, net, p))
    decreases Left(limit, p.reconnections), 2, 0, 0
  {
    var a := net(p.attempts);
    var entered := p.(attempts := p.attempts + 1);
    var r := HandleAll(limit, net, p.attempts, a.errors, entered);
    HandleAllPrints(limit, net, p.attempts, a.errors, entered);
    PrintsAppend(r.log, if a.hasValue then Printed(p.attempts) else NoValue(p.attempts));
    ConnectionsFrom(net, p.attempts, r.attempts);
    assert Run(limit, net, p).attempts == r.attempts;
  }

  /** The first of the attempts counted by itself. */
  lemma ConnectionsFrom(net: Network, m: nat, n: nat)
    requires m < n
    ensures Connections(net, m, n) == Connections(net, m + 1, n) + if net(m).Called? then 1 else 0
  {
    ConnectionsOne(net, m);
    ConnectionsSplit(net, m, m + 1, n);
  }

  lemma {:induction false} HandleAllPrints(limit: int, net: Network, k: nat, errors: seq<ErrorCode>, p: Progress)
    ensures Balanced(net, p, HandleAll(limit, net, k, errors, p))
    decreases Left(limit, p.reconnections), 1, |errors|
  {
    if errors != [] {
      var logged := p.(log := p.log + [CallError(k, errors[0])]);
      PrintsAppend(p.log, CallError(k, errors[0]));
      HandlePrints(limit, net, errors[0], logged);
      var q := Handle(limit, net, errors[0], logged);
      if q.outcome == Returned {
        HandleAllPrints(limit, net, k, errors[1..], q);
        ConnectionsSplit(net, p.attempts, q.attempts, HandleAll(limit, net, k, errors[1..], q).attempts);
      }
    }
  }

  /** Main result: the status is 0 exactly when the tool has connected, and has printed a result for
    * every connection that it made. */
  lemma StatusExactly(limit: int, net: Network)
    ensures var q := RunTool(limit, net);
            Status(limit, net) == 0 <==> 0 < Connections(net, 0, q.attempts) == Prints(q.log)
  {
    RunPrints(limit, net, FRESH);
  }

  /** A call that has reported an error yields no value. */
  ghost predicate Consistent(net: Network) {
    forall k :: net(k).Called? && net(k).hasValue ==> net(k).errors == []
  }

  ghost predicate HasPrinted(log: seq<Event>) {
    exists e :: e in log && e.Printed?
  }

  ghost predicate CallFailed(log: seq<Event>) {
    exists e :: e in log && e.CallError?
  }

  /** A run in which a result is printed and no call fails returns; so it does, when calls that have
    * failed yield no value, only then. */
  lemma {:induction false} RunReturns(limit: int, net: Network, p: Progress)
    requires !CallFailed(p.log) && !HasPrinted(p.log)
    ensures var q := Run(limit, net, p);
            && (HasPrinted(q.log) && !CallFailed(q.log) ==> q.outcome == Returned)
            && (Consistent(net) && q.outcome == Returned ==> !CallFailed(q.log))
    decreases Left(limit, p.reconnections), 2, 0
  {
    match net(p.attempts)
    case ConnectFails(code) =>
      var logged := p.(attempts := p.attempts + 1, log := p.log + [ConnectError(p.attempts, code)]);
      if code == FAIL && logged.reconnections + 1 < limit {
        RunReturns(limit, net, logged.(reconnections := logged.reconnections + 1));
      }
    case Called(errors, hasValue) =>
      if errors != [] {
        CallErrorStays(limit, net, p.attempts, errors, p.(attempts := p.attempts + 1));
      }
  }

  /** A log only grows. */
  lemma {:induction false} HandleLog(limit: int, net: Network, code: ErrorCode, p: Progress)
    ensures p.log <= Handle(limit, net, code, p).log
    decreases Left(limit, p.reconnections), 0, 0
  {
    if code == FAIL && p.reconnections + 1 < limit {
      RunLog(limit, net, p.(reconnections := p.reconnections + 1));
    }
  }

  lemma {:induction false} RunLog(limit: int, net: Network, p: Progress)
    ensures p.log <= Run(limit, net, p).log
    decreases Left(limit, p.reconnections), 2, 0
  {
    var entered := p.(attempts := p.attempts + 1);
    match net(p.attempts)
    case ConnectFails(code) => HandleLog(limit, net, code, entered.(log := p.log + [ConnectError(p.attempts, code)]));
    case Called(errors, _) => HandleAllLog(limit, net, p.attempts, errors, entered);
  }

  lemma {:induction false} HandleAllLog(limit: int, net: Network, k: nat, errors: seq<ErrorCode>, p: Progress)
    ensures p.log <= HandleAll(limit, net, k, errors, p).log
    decreases Left(limit, p.reconnections), 1, |errors|
  {
    if errors != [] {
      var logged := p.(log := p.log + [CallError(k, errors[0])]);
      HandleLog(limit, net, errors[0], logged);
      var q := Handle(limit, net, errors[0], logged);
      if q.outcome == Returned {
        HandleAllLog(limit, net, k, errors[1..], q);
      }
    }
  }

  lemma CallErrorStays(limit: int, net: Network, k: nat, errors: seq<ErrorCode>, p: Progress)
    requires errors != []
    ensures CallFailed(HandleAll(limit, net, k, errors, p).log)
  {
    var e := CallError(k, errors[0]);
    var logged := p.(log := p.log + [e]);
    HandleLog(limit, net, errors[0], logged);
    var q := Handle(limit, net, errors[0], logged);
    if q.outcome == Returned {
      HandleAllLog(limit, net, k, errors[1..], q);
    }
    assert logged.log[|p.log|] == e;
    assert e in HandleAll(limit, net, k, errors, p).log;
  }

  ghost predicate LastIsPrinted(log: seq<Event>) {
    log != [] && log[|log| - 1].Printed?
  }

  lemma {:induction false} HandleLast(limit: int, net: Network, code: ErrorCode, p: Progress)
    requires p.log != [] && !LastIsPrinted(p.log)
    ensures var q := Handle(limit, net, code, p); q.outcome == Returned <==> LastIsPrinted(q.log)
    decreases Left(limit, p.reconnections), 0, 0
  {
    if code == FAIL && p.reconnections + 1 < limit {
      RunLast(limit, net, p.(reconnections := p.reconnections + 1));
    }
  }

  /** On every network, do_request returns exactly if printing a result is the last thing it does. */
  lemma {:induction false} RunLast(limit: int, net: Network, p: Progress)
    ensures var q := Run(limit, net, p); q.outcome == Returned <==> LastIsPrinted(q.log)
    decreases Left(limit, p.reconnections), 2, 0
  {
    var entered := p.(attempts := p.attempts + 1);
    match net(p.attempts)
    case ConnectFails(code) => HandleLast(limit, net, code, entered.(log := p.log + [ConnectError(p.attempts, code)]));
    case Called(errors, _) => HandleAllLast(limit, net, p.attempts, errors, entered);
  }

  lemma {:induction false} HandleAllLast(limit: int, net: Network, k: nat, errors: seq<ErrorCode>, p: Progress)
    ensures var q := HandleAll(limit, net, k, errors, p); q.outcome == Exited ==> !LastIsPrinted(q.log)
    decreases Left(limit, p.reconnections), 1, |errors|
  {
    if errors != [] {
      var logged := p.(log := p.log + [CallError(k, errors[0])]);
      HandleLast(limit, net, errors[0], logged);
      var q := Handle(limit, net, errors[0], logged);
      if q.outcome == Returned {
        HandleAllLast(limit, net, k, errors[1..], q);
      }
    }
  }

  /** Main result, for all networks: the status is 0 exactly when printing a result is the last of
    * everything that the nested runs report. */
  lemma StatusIsLastEvent(limit: int, net: Network)
    ensures Status(limit, net) == 0 <==> LastIsPrinted(RunTool(limit, net).log)
  {
    RunLast(limit, net, FRESH);
  }

  /** If a result is printed and no call has failed after its connection was made, the status is 0;
    * and conversely, when calls that have failed yield no value. */
  lemma StatusOfCalls(limit: int, net: Network)
    ensures var log := RunTool(limit, net).log;
            && (HasPrinted(log) && !CallFailed(log) ==> Status(limit, net) == 0)
            && (Status(limit, net) == 0 ==> HasPrinted(log))
            && (Consistent(net) ==> (Status(limit, net) == 0 <==> HasPrinted(log) && !CallFailed(log)))
  {
    RunReturns(limit, net, FRESH);
    RunLast(limit, net, FRESH);
  }

  /** The first call fails, the second one succeeds. */
  function Recovers(k: nat): Attempt {
    if k == 0 then Called([FAIL], false) else Called([], true)
  }

  /** With any retry allowed, this network makes the tool print a result and still exit with -1. */
  lemma RecoveredButFailed(limit: int)
    requires limit > 1
    ensures Consistent(Recovers)
    ensures HasPrinted(RunTool(limit, Recovers).log) && Status(limit, Recovers) == -1
  {
    var logged := Progress(Returned, 1, 0, [CallError(0, FAIL)]);
    var retry := logged.(reconnections := 1);
    assert Run(limit, Recovers, retry) == Progress(Returned, 2, 1, [CallError(0, FAIL), Printed(1)]);
    assert Handle(limit, Recovers, FAIL, logged) == Run(limit, Recovers, retry);
    assert HandleAll(limit, Recovers, 0, [], Run(limit, Recovers, retry)) == Run(limit, Recovers, retry);
    assert [FAIL][1..] == [] && [] + [CallError(0, FAIL)] == [CallError(0, FAIL)];
    assert HandleAll(limit, Recovers, 0, [FAIL], Progress(Returned, 1, 0, [])) == Run(limit, Recovers, retry);
    var log := [CallError(0, FAIL), Printed(1)] + [NoValue(0)];
    assert RunTool(limit, Recovers).log == log;
    assert log[1] == Printed(1) && log[1] in log;
  }

  /** Main result: "a printed result means status 0" holds on every network exactly when no retry is
    * allowed. */
  lemma PrintedMeansZeroExactly(limit: int)
    ensures (forall net: Network :: HasPrinted(RunTool(limit, net).log) ==> Status(limit, net) == 0)
       <==> limit <= 1
  {
    if limit <= 1 {
      forall net: Network | HasPrinted(RunTool(limit, net).log)
        ensures Status(limit, net) == 0
      {
        OneAttempt(limit, net);
      }
    } else {
      RecoveredButFailed(limit);
    }
  }

  lemma OneAttempt(limit: int, net: Network)
    requires limit <= 1
    ensures HasPrinted(RunTool(limit, net).log) ==> Status(limit, net) == 0
  {
    var entered := FRESH.(attempts := FRESH.attempts + 1);
    match net(FRESH.attempts)
    case ConnectFails(code) =>
      var logged := entered.(log := FRESH.log + [ConnectError(FRESH.attempts, code)]);
      assert Handle(limit, net, code, logged).log == logged.log;
      assert RunTool(limit, net) == Handle(limit, net, code, logged);
    case Called(errors, hasValue) =>
      var q := HandleAll(limit, net, FRESH.attempts, errors, entered);
      if errors != [] {
        var logged := entered.(log := entered.log + [CallError(FRESH.attempts, errors[0])]);
        assert q == Handle(limit, net, errors[0], logged) && q.log == logged.log;
      } else {
        assert q == entered;
        assert RunTool(limit, net).log == q.log + [if hasValue then Printed(FRESH.attempts) else NoValue(FRESH.attempts)];
      }
  }
}
