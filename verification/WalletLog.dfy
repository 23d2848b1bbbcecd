/** What the wallet tool does on every network, event by event, without reference to how it is
  * programmed: what each attempt reports, and what follows each report. */
module WalletLog {
  import opened Messages
  import opened Wallet

  // ---------- the events of each attempt ----------

  function CallErrors(k: nat, errors: seq<ErrorCode>): seq<Event> {
    if errors == [] then [] else [CallError(k, errors[0])] + CallErrors(k, errors[1..])
  }

  /** All that the k-th attempt reports, if nothing makes the tool exit before. */
  function Own(k: nat, a: Attempt): seq<Event> {
    match a
    case ConnectFails(code) => [ConnectError(k, code)]
    case Called(errors, hasValue) => CallErrors(k, errors) + [if hasValue then Printed(k) else NoValue(k)]
  }

  /** The events of the k-th attempt, in their order. */
  function Of(log: seq<Event>, k: nat): seq<Event> {
    if log == [] then []
    else Of(log[..|log| - 1], k) + if log[|log| - 1].attempt == k then [log[|log| - 1]] else []
  }

  lemma OfAppend(log: seq<Event>, e: Event, k: nat)
    ensures Of(log + [e], k) == Of(log, k) + if e.attempt == k then [e] else []
  {
    assert (log + [e])[..|log|] == log;
  }

  /** What may have happened to the events of the k-th attempt from `p` to `q`. */
  ghost predicate Grown(net: Network, k: nat, p: Progress, q: Progress) {
    && p.attempts <= q.attempts
    && (k < p.attempts ==> Of(q.log, k) == Of(p.log, k))
    && (p.attempts <= k < q.attempts ==> [] != Of(q.log, k) <= Own(k, net(k)))
    && (p.attempts <= k < q.attempts && q.outcome == Returned ==> Of(q.log, k) == Own(k, net(k)))
    && (q.attempts <= k ==> Of(q.log, k) == [])
  }

  lemma GrownOn(net: Network, k: nat, p: Progress, q: Progress, r: Progress)
    requires Grown(net, k, p, q) && q.outcome == Returned && Grown(net, k, q, r)
    ensures Grown(net, k, p, r)
  {
  }

  lemma {:induction false} HandleGrown(limit: int, net: Network, code: ErrorCode, p: Progress, k: nat)
    requires p.attempts <= k ==> Of(p.log, k) == []
    ensures Grown(net, k, p, Handle(limit, net, code, p))
    decreases Left(limit, p.reconnections), 0, 0
  {
    if code == FAIL && p.reconnections + 1 < limit {
      RunGrown(limit, net, p.(reconnections := p.reconnections + 1), k);
    }
  }

  lemma {:induction false} RunGrown(limit: int, net: Network, p: Progress, k: nat)
    requires p.attempts <= k ==> Of(p.log, k) == []
    ensures Grown(net, k, p, Run(limit, net, p))
    decreases Left(limit, p.reconnections), 2, 0
  {
    var n := p.attempts;
    var entered := p.(attempts := n + 1);
    match net(n)
    case ConnectFails(code) =>
      var logged := entered.(log := p.log + [ConnectError(n, code)]);
      OfAppend(p.log, ConnectError(n, code), k);
      HandleGrown(limit, net, code, logged, k);
    case Called(errors, hasValue) =>
      CalledGrown(limit, net, p, k);
  }

  lemma {:induction false} CalledGrown(limit: int, net: Network, p: Progress, k: nat)
    requires p.attempts <= k ==> Of(p.log, k) == []
    requires net(p.attempts).Called?
    ensures Grown(net, k, p, Run(limit, net, p))
    decreases Left(limit, p.reconnections), 2, 0, 0
  {
    var n, a := p.attempts, net(p.attempts);
    var entered := p.(attempts := n + 1);
    var q := HandleAll(limit, net, n, a.errors, entered);
    var e := if a.hasValue then Printed(n) else NoValue(n);
    HandleAllGrown(limit, net, n, a.errors, entered, k);
    if q.outcome == Returned {
      ResultGrown(net, k, p, q, e);
      assert Run(limit, net, p) == q.(outcome := if e.Printed? then Returned else Exited, log := q.log + [e]);
    } else {
      if k == n {
        CutShort(CallErrors(n, a.errors), Of(q.log, n), e);
      }
      assert Run(limit, net, p) == q;
    }
  }

  lemma CutShort(errors: seq<Event>, log: seq<Event>, e: Event)
    requires log <= errors
    ensures log <= errors + [e]
  {
  }

  /** The result of the attempt completes its events. */
  lemma ResultGrown(net: Network, k: nat, p: Progress, q: Progress, e: Event)
    requires var n := p.attempts;
             && net(n).Called? && e == (if net(n).hasValue then Printed(n) else NoValue(n))
             && n < q.attempts && q.outcome == Returned
             && (k != n ==> Grown(net, k, p.(attempts := n + 1), q))
             && (k == n ==> Of(q.log, n) == CallErrors(n, net(n).errors))
    ensures Grown(net, k, p, q.(outcome := if e.Printed? then Returned else Exited, log := q.log + [e]))
  {
    OfAppend(q.log, e, k);
  }

  /** The events of the attempt itself are those of the errors, as far as they have got. */
  lemma {:induction false} HandleAllGrown(
    limit: int, net: Network, n: nat, errors: seq<ErrorCode>, p: Progress, k: nat)
    requires n < p.attempts && (p.attempts <= k ==> Of(p.log, k) == [])
    ensures var q := HandleAll(limit, net, n, errors, p);
            && (k != n ==> Grown(net, k, p, q))
            && (k == n ==> Of(q.log, n) <= Of(p.log, n) + CallErrors(n, errors))
            && (k == n && q.outcome == Returned ==> Of(q.log, n) == Of(p.log, n) + CallErrors(n, errors))
            && (k == n && q.outcome == Exited ==> Of(q.log, n) != [])
    decreases Left(limit, p.reconnections), 1, |errors|
  {
    if errors != [] {
      var logged := p.(log := p.log + [CallError(n, errors[0])]);
      var q := Handle(limit, net, errors[0], logged);
      OfAppend(p.log, CallError(n, errors[0]), k);
      HandleGrown(limit, net, errors[0], logged, k);
      if q.outcome == Returned {
        HandleAllGrown(limit, net, n, errors[1..], q, k);
      }
      assert Of(p.log, n) + CallErrors(n, errors) == (Of(p.log, n) + [CallError(n, errors[0])]) + CallErrors(n, errors[1..]);
    }
  }

  /** Main result, for all networks: each attempt that is made reports its errors in their order and then
    * its result, or the first part of this; all of it if the tool does not exit; and no other attempt
    * reports anything. */
  lemma EventsExactly(limit: int, net: Network, k: nat)
    ensures var q := RunTool(limit, net);
            && (k < q.attempts ==> [] != Of(q.log, k) <= Own(k, net(k)))
            && (k < q.attempts && q.outcome == Returned ==> Of(q.log, k) == Own(k, net(k)))
            && (k >= q.attempts ==> Of(q.log, k) == [])
  {
    RunGrown(limit, net, FRESH, k);
  }

  // ---------- what follows what ----------

  predicate IsError(e: Event) {
    e.ConnectError? || e.CallError?
  }

  /** How many errors with code FAIL have been reported. */
  function Fails(log: seq<Event>): nat {
    if log == [] then 0
    else Fails(log[..|log| - 1]) + if IsError(log[|log| - 1]) && log[|log| - 1].code == FAIL then 1 else 0
  }

  /** How many attempts a log knows of. */
  function Started(log: seq<Event>): nat {
    if log == [] then 0
    else
      var before, last := Started(log[..|log| - 1]), log[|log| - 1].attempt;
      if before > last then before else last + 1
  }

  lemma LogAppend(log: seq<Event>, e: Event)
    ensures Fails(log + [e]) == Fails(log) + if IsError(e) && e.code == FAIL then 1 else 0
    ensures Started(log + [e]) == if Started(log) > e.attempt then Started(log) else e.attempt + 1
  {
    assert (log + [e])[..|log|] == log;
  }

  /** The rule for the i-th event: an error other than FAIL, and a FAIL at the limit, is the last event,
    * as is a missing value; after any other FAIL comes the first event of the next attempt; and after a
    * result an event of an attempt that began before. */
  ghost predicate Follows(limit: int, q: Progress, i: nat)
    requires i < |q.log|
  {
    var e := q.log[i];
    if IsError(e) then
      if e.code != FAIL || Fails(q.log[..i + 1]) >= limit then i == |q.log| - 1 && q.outcome == Exited
      else i + 1 < |q.log| && q.log[i + 1].attempt == Started(q.log[..i + 1])
    else if e.NoValue? then i == |q.log| - 1 && q.outcome == Exited
    else if i == |q.log| - 1 then q.outcome == Returned
    else q.log[i + 1].attempt < e.attempt
  }

  ghost predicate Ruled(limit: int, p: Progress, q: Progress) {
    && p.log <= q.log
    && Fails(q.log) == q.reconnections && Started(q.log) == q.attempts
    && forall i :: |p.log| <= i < |q.log| ==> Follows(limit, q, i)
  }

  /** The last event is the result of an attempt that began after the first `n`. */
  predicate EndsWithResult(log: seq<Event>, n: nat) {
    log != [] && log[|log| - 1].Printed? && log[|log| - 1].attempt >= n
  }

  /** The handler has just been called for the last event of the log. */
  ghost predicate Pending(code: ErrorCode, p: Progress) {
    && p.log != [] && IsError(p.log[|p.log| - 1]) && p.log[|p.log| - 1].code == code
    && Fails(p.log) == p.reconnections + (if code == FAIL then 1 else 0)
    && Started(p.log) == p.attempts
  }

  lemma {:induction false} HandleRuled(limit: int, net: Network, code: ErrorCode, p: Progress)
    requires Pending(code, p)
    ensures var q := Handle(limit, net, code, p);
            && Ruled(limit, p, q) && Follows(limit, q, |p.log| - 1)
            && (q.outcome == Returned ==> EndsWithResult(q.log, p.attempts))
    decreases Left(limit, p.reconnections), 0, 0
  {
    assert p.log[..|p.log|] == p.log;
    if code == FAIL && p.reconnections + 1 < limit {
      var counted := p.(reconnections := p.reconnections + 1);
      RunRuled(limit, net, counted);
      var q := Run(limit, net, counted);
      assert q.log[..|p.log|] == p.log && q.log[|p.log| - 1] == p.log[|p.log| - 1];
    }
  }

  lemma {:induction false} RunRuled(limit: int, net: Network, p: Progress)
    requires Fails(p.log) == p.reconnections && Started(p.log) == p.attempts
    ensures var q := Run(limit, net, p);
            && Ruled(limit, p, q) && |p.log| < |q.log| && q.log[|p.log|].attempt == p.attempts
            && (q.outcome == Returned ==> EndsWithResult(q.log, p.attempts))
    decreases Left(limit, p.reconnections), 2, 0
  {
    var n := p.attempts;
    match net(n)
    case ConnectFails(code) =>
      var logged := p.(attempts := n + 1, log := p.log + [ConnectError(n, code)]);
      LogAppend(p.log, ConnectError(n, code));
      HandleRuled(limit, net, code, logged);
      RuledFrom(limit, p, logged, Handle(limit, net, code, logged));
    case Called(errors, hasValue) =>
      CalledRuled(limit, net, p);
  }

  /** One event more at the front. */
  lemma RuledFrom(limit: int, p: Progress, logged: Progress, q: Progress)
    requires p.log <= logged.log && |logged.log| == |p.log| + 1
    requires Ruled(limit, logged, q) && Follows(limit, q, |p.log|)
    ensures Ruled(limit, p, q) && q.log[|p.log|] == logged.log[|p.log|]
  {
  }

  lemma {:induction false} CalledRuled(limit: int, net: Network, p: Progress)
    requires Fails(p.log) == p.reconnections && Started(p.log) == p.attempts
    requires net(p.attempts).Called?
    ensures var q := Run(limit, net, p);
            && Ruled(limit, p, q) && |p.log| < |q.log| && q.log[|p.log|].attempt == p.attempts
            && (q.outcome == Returned ==> EndsWithResult(q.log, p.attempts))
    decreases Left(limit, p.reconnections), 2, 0, 0
  {
    var n, a := p.attempts, net(p.attempts);
    var entered := p.(attempts := n + 1);
    var q := HandleAll(limit, net, n, a.errors, entered);
    NothingYet(limit, p);
    HandleAllRuled(limit, net, n, a.errors, p, entered);
    if q.outcome == Returned {
      var e := if a.hasValue then Printed(n) else NoValue(n);
      StepRuled(limit, n, p, q, e);
      assert Run(limit, net, p) == q.(outcome := if a.hasValue then Returned else Exited, log := q.log + [e]);
    }
  }

  lemma NothingYet(limit: int, p: Progress)
    requires Fails(p.log) == p.reconnections && Started(p.log) == p.attempts
    ensures Between(limit, p.attempts, p, p.(attempts := p.attempts + 1))
  {
  }

  /** Between two events of the n-th attempt: after `base`, either nothing has been reported, or errors
    * of this attempt have led to retries, and the last of these has printed its result. */
  ghost predicate Between(limit: int, n: nat, base: Progress, p: Progress) {
    && base.log <= p.log && Started(base.log) == n && Fails(p.log) == p.reconnections
    && (if p.log == base.log then p.attempts == n + 1 else
          && n < p.attempts == Started(p.log)
          && p.log[|base.log|].attempt == n && EndsWithResult(p.log, n + 1))
    && forall i :: |base.log| <= i < |p.log| ==> Follows(limit, p.(outcome := Returned), i)
  }

  /** The next event of the attempt keeps the rule for all before it. */
  lemma NextEvent(limit: int, n: nat, base: Progress, p: Progress, e: Event, q: Progress)
    requires Between(limit, n, base, p) && e.attempt == n && p.log + [e] <= q.log
    ensures forall i :: |base.log| <= i < |p.log| ==> Follows(limit, q, i)
    ensures |base.log| < |q.log| && q.log[|base.log|].attempt == n
    ensures Started(p.log + [e]) == p.attempts
  {
    LogAppend(p.log, e);
    assert q.log[..|p.log|] == p.log && q.log[|p.log|] == e;
    forall i | |base.log| <= i < |p.log|
      ensures Follows(limit, q, i)
    {
      assert Follows(limit, p.(outcome := Returned), i);
      assert q.log[..i + 1] == p.log[..i + 1] && q.log[i] == p.log[i];
    }
  }

  /** The result of an attempt. */
  lemma StepRuled(limit: int, n: nat, base: Progress, p: Progress, e: Event)
    requires Between(limit, n, base, p) && (e == Printed(n) || e == NoValue(n))
    ensures var q := p.(outcome := if e.Printed? then Returned else Exited, log := p.log + [e]);
            Ruled(limit, base, q) && |base.log| < |q.log| && q.log[|base.log|].attempt == n
  {
    LogAppend(p.log, e);
    NextEvent(limit, n, base, p, e, p.(outcome := if e.Printed? then Returned else Exited, log := p.log + [e]));
  }

  lemma {:induction false} HandleAllRuled(
    limit: int, net: Network, n: nat, errors: seq<ErrorCode>, base: Progress, p: Progress)
    requires Between(limit, n, base, p)
    ensures var q := HandleAll(limit, net, n, errors, p);
            && (q.outcome == Returned ==> Between(limit, n, base, q))
            && (q.outcome == Exited ==> Ruled(limit, base, q) && |base.log| < |q.log| && q.log[|base.log|].attempt == n)
    decreases Left(limit, p.reconnections), 1, |errors|
  {
    if errors != [] {
      OneErrorRuled(limit, net, n, errors[0], base, p);
      var q := Handle(limit, net, errors[0], p.(log := p.log + [CallError(n, errors[0])]));
      if q.outcome == Returned {
        HandleAllRuled(limit, net, n, errors[1..], base, q);
      }
    }
  }

  lemma {:induction false} OneErrorRuled(
    limit: int, net: Network, n: nat, code: ErrorCode, base: Progress, p: Progress)
    requires Between(limit, n, base, p)
    ensures var q := Handle(limit, net, code, p.(log := p.log + [CallError(n, code)]));
            && (q.outcome == Returned ==> Between(limit, n, base, q))
            && (q.outcome == Exited ==> Ruled(limit, base, q) && |base.log| < |q.log| && q.log[|base.log|].attempt == n)
    decreases Left(limit, p.reconnections), 1, 0
  {
    var e := CallError(n, code);
    var logged := p.(log := p.log + [e]);
    ErrorPending(limit, n, base, p, code);
    HandleRuled(limit, net, code, logged);
    ErrorRuled(limit, n, base, p, e, Handle(limit, net, code, logged));
  }

  lemma ErrorPending(limit: int, n: nat, base: Progress, p: Progress, code: ErrorCode)
    requires Between(limit, n, base, p)
    ensures Pending(code, p.(log := p.log + [CallError(n, code)]))
  {
    LogAppend(p.log, CallError(n, code));
  }

  /** An error of the attempt, and the retries that it leads to. */
  lemma ErrorRuled(limit: int, n: nat, base: Progress, p: Progress, e: Event, q: Progress)
    requires Between(limit, n, base, p) && e.attempt == n
    requires Ruled(limit, p.(log := p.log + [e]), q) && Follows(limit, q, |p.log|)
    requires q.outcome == Returned ==> EndsWithResult(q.log, p.attempts) && q.attempts > n
    ensures Ruled(limit, base, q) && |base.log| < |q.log| && q.log[|base.log|].attempt == n
    ensures q.outcome == Returned ==> Between(limit, n, base, q)
  {
    NextEvent(limit, n, base, p, e, q);
    assert q == q.(outcome := q.outcome);
  }

  /** Main result, for all networks: an error other than FAIL ends the tool with status -1, as does a FAIL
    * at the limit and a missing value; any other FAIL makes the next attempt begin at once; and the tool
    * returns only after printing a result. */
  lemma FollowsExactly(limit: int, net: Network)
    ensures var q := RunTool(limit, net);
            && q.log != []
            && (forall i :: 0 <= i < |q.log| ==> Follows(limit, q, i))
            && (q.outcome == Returned <==> q.log[|q.log| - 1].Printed?)
  {
    RunRuled(limit, net, FRESH);
    var q := RunTool(limit, net);
    assert Follows(limit, q, |q.log| - 1);
  }

  /** Nothing is tried again after another error than FAIL: it is the last event, and the tool exits. */
  lemma OtherErrorsEnd(limit: int, net: Network, i: nat)
    requires var log := RunTool(limit, net).log; i < |log| && IsError(log[i]) && log[i].code != FAIL
    ensures i == |RunTool(limit, net).log| - 1 && RunTool(limit, net).outcome == Exited && Status(limit, net) == -1
  {
    FollowsExactly(limit, net);
    assert Follows(limit, RunTool(limit, net), i);
  }
}
