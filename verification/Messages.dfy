/** What travels on a connection, and what the client reports about it. */
module Messages {
  import opened Wrappers

  /** The result codes that the session hands to the connection error handler. */
  datatype ErrorCode = FAIL | TIMEOUT | NOT_FOUND | EXCEPTION | NOT_SUPPORTED | EMPTY

  /** What a request looks at in an HTTP response: the status, whether the body parses as JSON,
    * and whether it has a "result" that is not null. */
  datatype Reply = Reply(statusOk: bool, parses: bool, hasResult: bool)

  /** What happens to the bytes of a connection outside the handler queue. */
  datatype PeerAct =
    | Answer(which: nat, reply: Reply)      // the server answers one of the requests it has not answered
    | Oversized(which: nat, leftover: nat)  // so it does, but the client's parser refuses the size of the
                                            // answer; its rest makes `leftover` more reads fail
    | Junk                                  // the server sends something that is not an HTTP response
    | Drop                                  // the connection breaks
    | Swallow                               // a read in progress buffers a further message, and will drop it

  /** One message on its way to the client, or a piece of one that makes a read fail. */
  datatype Item = Response(call: nat, reply: Reply) | Garbage

  /** How the exchange of one request goes. */
  datatype Exchange =
    | BodyThrows             // the request body cannot be written out
    | WriteFails
    | ReadFails
    | Replied(reply: Reply)

  /** The exchange of a request whose body can be written out. */
  type Written = e: Exchange | e != BodyThrows witness WriteFails

  /** How a request settles: a value, a call of the response handler, or one of the error handler. */
  datatype Settled = GotValue | ResponseHandler | ErrorHandler(code: ErrorCode)

  /** An exception by its class; every named class is a std::exception, `Foreign` is not. */
  datatype Thrown = ParseError | InvalidIterator | TypeError | OutOfRange | OtherError | OtherStd | Foreign

  datatype Clause = CatchStd | CatchOnly(name: Thrown) | CatchAll

  predicate Catches(clause: Clause, thrown: Thrown) {
    match clause
    case CatchStd => thrown != Foreign
    case CatchOnly(t) => thrown == t
    case CatchAll => true
  }

  /** The catch clauses of a request in their order, each with the code that it reports. */
  const CLAUSES: seq<(Clause, ErrorCode)> := [
    (CatchStd, FAIL),
    (CatchOnly(ParseError), EXCEPTION),
    (CatchOnly(InvalidIterator), EXCEPTION),
    (CatchOnly(TypeError), EXCEPTION),
    (CatchOnly(OutOfRange), EXCEPTION),
    (CatchOnly(OtherError), EXCEPTION),
    (CatchAll, EXCEPTION)
  ]

  /** The clause that runs is the first one that catches; an exception that none catches escapes. */
  function FirstCatch(clauses: seq<(Clause, ErrorCode)>, thrown: Thrown): Option<ErrorCode> {
    if clauses == [] then None
    else if Catches(clauses[0].0, thrown) then Some(clauses[0].1)
    else FirstCatch(clauses[1..], thrown)
  }

  /** No exception leaves a request; and it is reported as EXCEPTION exactly if it is not a
    * std::exception, so the five clauses for the classes of the JSON library never run. */
  lemma ReportedExactly(thrown: Thrown)
    ensures FirstCatch(CLAUSES, thrown) == Some(if thrown == Foreign then EXCEPTION else FAIL)
  {
  }

  /** The code that a request reports for an exception. */
  function Report(thrown: Thrown): (code: ErrorCode)
    ensures code == EXCEPTION <==> thrown == Foreign
    ensures code == FAIL <==> thrown != Foreign
  {
    ReportedExactly(thrown);
    FirstCatch(CLAUSES, thrown).value
  }

  /** How a request settles.  Writing out a body that is not valid text throws a type error. */
  function Settle(e: Exchange): Settled {
    match e
    case BodyThrows => ErrorHandler(Report(TypeError))
    case WriteFails => ErrorHandler(TIMEOUT)
    case ReadFails => ErrorHandler(TIMEOUT)
    case Replied(r) =>
      if !r.statusOk then ResponseHandler
      else if !r.parses then ErrorHandler(Report(ParseError))
      else if !r.hasResult then ResponseHandler
      else GotValue
  }

  /** How each exchange settles, by what came back. */
  lemma SettlesExactly(e: Exchange)
    ensures Settle(e) == GotValue <==> e.Replied? && e.reply.statusOk && e.reply.parses && e.reply.hasResult
    ensures Settle(e) == ResponseHandler
       <==> e.Replied? && (!e.reply.statusOk || (e.reply.parses && !e.reply.hasResult))
    ensures Settle(e).ErrorHandler?
       <==> e in {BodyThrows, WriteFails, ReadFails} || (e.Replied? && e.reply.statusOk && !e.reply.parses)
  {
  }

  /** No exchange is ever reported as EXCEPTION: only FAIL and TIMEOUT reach the error handler, and
    * FAIL does exactly for a body that cannot be written out or an answer that does not parse. */
  lemma NeverReportsException(e: Exchange)
    ensures Settle(e) != ErrorHandler(EXCEPTION)
    ensures Settle(e) == ErrorHandler(FAIL) <==> e == BodyThrows || (e.Replied? && e.reply.statusOk && !e.reply.parses)
    ensures Settle(e) == ErrorHandler(TIMEOUT) <==> e == WriteFails || e == ReadFails
  {
  }
}
