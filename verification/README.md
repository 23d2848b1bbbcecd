# Verified model of the MILE JSON-RPC client

This project models four parts of the MILE JSON-RPC client and proves what they promise:

* the URL parser: its regular expression, its port arithmetic and the objects it returns;
* the session: one socket, one self-renewing deadline timer and one asynchronous operation at a
  time on a single-threaded handler queue, with the `connect`, `write`, `read` and `request` calls
  that run this queue;
* the connection: which answer a request returns, although the client never compares ids, and what
  comparing them would achieve;
* the two command-line drivers, whose error handler starts the failed work again from inside the
  call that failed.

`dafny verify dfyconfig.toml` checks everything.

## How the files fit together

* `Regex.dfy` has regular expressions with groups and a backtracking matcher that tries
  alternatives in the priority order of a Perl-style engine. `UrlPattern.dfy` has the parser's
  expression, a one-pass scanner, and the proof that both are the same function. `Rfc3986.dfy` runs
  the expression of Appendix B of RFC 3986 on the same matcher and says when the two splits agree.
  `Numerals.dfy` has `std::stoi` with base 0 and decimal text. `Url.dfy` has the class.
* `Messages.dfy` names replies, error codes, catch clauses and how a request settles.
  `EventLoop.dfy` is the handler queue as a timed state machine. `OneTimeout.dfy` is the simpler
  machine it is equivalent to. `Connection.dfy` adds requests and answers in flight, and
  `Confusion.dfy` says which uses of it are safe, with runs that show it of the others. `Session.dfy`
  has the class, whose methods change its fields and record every transition in `trace`, so that each
  theorem about runs is a theorem about the objects. `Client.dfy` joins the parser and the session.
  `RpcId.dfy` has the id counter, and `IdCheck.dfy` says what comparing ids would achieve.
* `Transfer.dfy` and `Wallet.dfy` have the two drivers, each as a class that re-enters itself and as
  the function it is proved equal to. `TransferLog.dfy` and `WalletLog.dfy` say what they do on every
  network, event by event, in terms of the attempts alone.

## Results that contradict an expectation

* The fragment of a URL is lost on return, because the copy constructor leaves it out
  (`Url.FragmentLost`; `Url.ReturnedFragment` says for which texts this is visible).
* A response that is not HTTP makes `read` fail without closing the socket; if the caller does not
  connect again, a later request returns the answer to an earlier one (`Confusion.JunkConfuses`).
  A well-behaved server can cause the same with an answer that is longer than the HTTP library's
  parser accepts (`Confusion.OversizedConfuses`), and a caller of `write` and `read` with a write that
  is not followed by its read (`Confusion.TwoWritesConfuse`). `Confusion.MatchingExactly` says which
  uses are safe. The order in which the server answers does not matter for them. Comparing ids would
  make every use safe, as long as the id counter does not wrap around
  (`IdCheck.ComparingIdsWouldDo`).
* No exchange of a request is reported as `EXCEPTION` (`Messages.NeverReportsException`): the clauses
  for the JSON exceptions never run, because `std::exception` is caught first
  (`Messages.ReportedExactly`). A body that does not parse is reported as `FAIL`, which is what the
  transfer tool retries, so a transfer can be executed several times
  (`Transfer.UnreadableAnswersRepeat`; `Transfer.ExecutedOnceExactly` says under which options it
  cannot).
* Status 0 of the transfer tool does not mean that anything was sent, under any options
  (`Transfer.StatusZeroProvesNothing`); `Transfer.StatusExactly` says when the status is 0, and
  `Transfer.AcknowledgedExactly` when the transfer has been acknowledged.
* The wallet tool can print the result of a retry and still exit with -1
  (`Wallet.RecoveredButFailed`; `Wallet.StatusExactly` says when the status is 0, and
  `Wallet.PrintedMeansZeroExactly` under which option the two always go together).
* The option text promises as many new connections as `--reconnections` says. The tools make as many
  exactly if the option is 0 or negative, and so says none (`Transfer.ReconnectionsExactly`,
  `Wallet.ReconnectionsExactly`). For a positive option they make fewer: without a working connection
  they stop at the first code other than `FAIL` (`Transfer.AttemptsWithoutConnection`,
  `Wallet.AttemptsWithoutConnection`), and make one less than promised exactly if there is no such
  code before the limit. A refused connection is reported as `TIMEOUT` and
  never tried again; with `FAIL`, the default of 3 gives two new connections
  (`Transfer.RefusedIsNotRetried`, `Wallet.RefusedIsNotRetried`). In test mode, which only the transfer
  tool has, there is never more than one attempt (`Transfer.TestModeOnce`).

## What is assumed of the libraries

* Setting the expiry of a timer queues the handler of its pending wait. A fresh timer's expiry
  counts as passed.
* `run_one` runs exactly one handler of those that are ready, and waits for one otherwise. Which of
  several ready handlers it takes is left open; the library's first-come order is one of the cases.
* Closing a socket completes its pending operation with an error; an operation that is started on a
  closed socket, or goes on with a further step there, completes with an error too. No operation
  completes with `would_block`.
* An operation runs a finite number of internal handlers, chosen freely when it starts.
* After a transport error no later operation on the same connection succeeds, and closing a socket
  loses what was on its way. A read may buffer further messages, and drops them when it returns.
* The server answers each request at most once, in any order, although section 5.6 of RFC 7230 asks
  for the order of arrival. Besides it may send what is not HTTP (`Junk`), and answers of which the
  header or the body exceeds the limits of the library's parser (`Oversized`); such an answer makes
  `read` fail with the socket open, and what is left of it makes any number of later reads fail, but
  is never taken for a response. Where the rows below speak of a peer that only answers, it sends
  neither.
* `prompt` sessions also assume that ready handlers run before time advances; only the time bounds
  use this. The bound of `connect` counts the resolution of the host name, which no deadline covers,
  as taking no time.
* The timeout is not negative, although the wallet tool's command line accepts a negative one.
* The exceptions of the JSON library are all derived from `std::exception`. The only one that writing
  out a body throws is a type error. The transfer tool writes out its body before it sends it, outside
  any try block; what it then hands to `request` can be written out.
* The characters of a URL are compared one by one; `std::stoi` is `strtol` (section 7.22.1.4 of C11)
  with a check for the range of a 32-bit `int`.

## Model

| member | source | states |
|---|---|---|
| Regex.GreedyRun | src/milecsa_url.cpp:49 | a greedy repetition never gives a character back when what follows it can match after the whole run |
| Regex.AvoidedCharacter | src/milecsa_url.cpp:49 | a text with a character that no class of the expression admits cannot match, on any backtracking path |
| UrlPattern.MatchIsScan | src/milecsa_url.cpp:49-54 | for every text, backtracking over the expression gives exactly the captures of one greedy pass, and fails exactly when the pass does |
| UrlPattern.MatchExists | src/milecsa_url.cpp:49-54 | a text matches iff it starts with http, https or ftp and "://", goes on with a host character, and has no space |
| UrlPattern.ScanIsCanonical | src/milecsa_url.cpp:69-93 | which shapes of captures a match can have: absent delimiters leave their piece empty, an empty path ends the text, and so on |
| UrlPattern.CanonicalExactly | src/milecsa_url.cpp:49 | in single characters, what each piece of such a shape may consist of and how it begins |
| UrlPattern.ScanRebuilds | src/milecsa_url.cpp:56-93 | the captures and the three delimiter bits put the matched text together again |
| UrlPattern.PrintThenScan | src/milecsa_url.cpp:49-93 | printing any canonical captures and matching the text gives the same captures back |
| Rfc3986.SplitOfUrl | src/milecsa_url.cpp:49 | what the expression of Appendix B of RFC 3986 captures on a URL text, run by the same matcher |
| Rfc3986.RfcExactly | src/milecsa_url.cpp:49 | in single characters, where the components of Appendix B begin and end on a URL text |
| Rfc3986.AgreementWithRfc | src/milecsa_url.cpp:49-93 | the captures are the components of Appendix B iff the authority is followed by '/' or the end |
| Rfc3986.AbsorbedBeforePath | src/milecsa_url.cpp:49-93 | when a '?' or '#' ends the authority, that character is in the host or port capture, and the split differs from Appendix B |
| Numerals.AccumulateIsPositional | src/milecsa_url.cpp:82 | accumulating digits reads the longest digit prefix and gives its positional value |
| Numerals.StoiExactly | src/milecsa_url.cpp:82 | stoi throws invalid_argument iff the text has no numeral after spaces and sign, out_of_range iff the numeral's value does not fit int, and else gives the mathematical value |
| Numerals.SpaceCodes | src/milecsa_url.cpp:82 | the skipped spaces are the characters of code 9 to 13 and 32 |
| Numerals.DigitMeans | src/milecsa_url.cpp:82 | which character stands for which digit, in either case |
| Numerals.DigitIsLiteral | src/milecsa_url.cpp:82 | no other character stands for a value below 16 |
| Numerals.ToDecimalExactly | src/milecsa_rpc_session.cpp:27 | the last character of a decimal text is that of the last digit, and before it comes the text of the tenth part |
| Numerals.DecimalRoundTrip | src/milecsa_rpc_session.cpp:27 | the decimal text of a number reads back as the number although base detection is on |
| Numerals.CanonicalText | src/milecsa_rpc_session.cpp:27 | a decimal numeral without leading zero is the text of its own value, so the text is unique |
| Url.Url.constructor | src/milecsa_url.cpp:34-40 | the fields of an object before parsing |
| Url.Url.Copy | src/milecsa_url.cpp:26-32 | a copy has every field of the original but the fragment, which is empty |
| Url.Url.Assign | src/milecsa_url.cpp:15-24 | assignment takes every field but the fragment, which keeps its old value |
| Url.Url.ReadProtocol | src/milecsa_url.cpp:56-64 | comparing the scheme in upper case recognises exactly http and https |
| Url.Url.Fill | src/milecsa_url.cpp:54-100 | setting the fields one by one from the captures ends in the outcome defined on the scanner's parts |
| Url.Url.Parse | src/milecsa_url.cpp:42-101 | the regex-driven method returns the outcome defined through the scanner; the error handler is called once iff nothing is returned, and not at all when an exception leaves it |
| Url.ParseExactly | src/milecsa_url.cpp:42-101 | a text is accepted iff it looks like an http or https URL and its port text is empty or a numeral of value 0 to 65535; Parse throws invalid_argument iff the port text is there but is no numeral, and out_of_range iff its value does not fit int; EMPTY is reported iff the text is empty |
| Url.AcceptedFields | src/milecsa_url.cpp:69-100 | the fields of an accepted text are the pieces of the text; the port is the numeral's value without loss, or 80 or 443 |
| Url.RfcFragmentIs | src/milecsa_url.cpp:93 | the fragment of Appendix B is what follows the first '#' of the text |
| Url.ReturnedFragment | src/milecsa_url.cpp:26-32 | the returned fragment is the URL's fragment iff the text has no '#' or ends with its first '#' |
| Url.FragmentLost | src/milecsa_url.cpp:93-100 | for http://h/#f the fragment is captured but returned empty |
| Url.PortTextRoundTrip | src/milecsa_url.cpp:72-89 | for every accepted spelling of the port the session's port text reads as the same number, and a URL with that text in place parses to the same fields |
| EventLoop.OneWaitOutstanding | src/milecsa_rpc_session.cpp:56-75 | in every reachable state exactly one deadline wait is armed or queued, and an operation is under way iff a client loops |
| EventLoop.WorkRun | src/milecsa_rpc_session.cpp:61-76 | the measure of the loops over any run: the environment adds no work, each handler run removes some of its kind |
| EventLoop.LoopIsBounded | include/milecsa_rpc_session.hpp:115-130 | a call's loop runs at most two deadline handlers and one handler per internal step plus one |
| EventLoop.NeverStuck | src/milecsa_rpc_session.cpp:123 | a looping client always has a ready handler, or the timer alone makes one ready |
| EventLoop.VerdictExactly | include/milecsa_rpc_session.hpp:115-142 | a call returns true iff its socket was open, its operation finished without error and no deadline handler found the expiry passed; then no handler of it is left |
| EventLoop.ClosedFailsUntilConnect | src/milecsa_rpc_session.cpp:61-86 | after a close every verdict is false until a connect begins, in runs of any length |
| EventLoop.WhoCloses | src/milecsa_rpc_session.cpp:63-75 | a run from an open to a closed socket has met a deadline handler that found the expiry then in force passed, or a connect that failed to open |
| EventLoop.IdleGapHarmless | include/milecsa_rpc_session.hpp:155-160 | an idle gap of any length closes nothing, and the wake-up it leaves only waits again |
| EventLoop.CallReturnsInTime | include/milecsa_rpc_session.hpp:115-130 | when ready handlers run first, a call returns within one timeout whatever the peer does |
| EventLoop.NoEarlyTimeout | include/milecsa_rpc_session.hpp:115-133 | a call does not lose an open socket before a whole timeout has passed since its beginning |
| OneTimeout.Simulates | src/milecsa_rpc_session.cpp:61-76 | every run with stale and cancelled wake-ups is a run of the machine without them, with the same final socket, operation and verdict |
| OneTimeout.Realized | src/milecsa_rpc_session.cpp:61-76 | every run of the machine without stale wake-ups is a run of the handler queue |
| OneTimeout.OneTimeoutPerCall | include/milecsa_rpc_session.hpp:118 | until the deadline is renewed it takes effect at most once |
| OneTimeout.WakeUpsDoNotMatter | src/milecsa_rpc_session.cpp:61-76 | runs that differ only in wake-ups that do nothing have the same verdict |
| Messages.ReportedExactly | src/milecsa_rpc_session.cpp:272-296 | of the seven catch clauses in their order, the first one reports every std::exception as FAIL, and the last one all else as EXCEPTION; the five between never run |
| Messages.SettlesExactly | src/milecsa_rpc_session.cpp:262-296 | a value iff status 200, a body that parses and a result; the response handler iff another status or no result; the error handler else |
| Messages.NeverReportsException | src/milecsa_rpc_session.cpp:218-296 | no exchange is reported as EXCEPTION; FAIL iff the body cannot be written out or the answer does not parse; TIMEOUT iff write or read fails |
| Connection.WInvStep | include/milecsa_rpc_session.hpp:152-185 | every step keeps the invariant that at most the current call's answer is outstanding, if requests start with none outstanding |
| Connection.EveryValueAnswersItsCall | src/milecsa_rpc_session.cpp:218-270 | with a server that only answers, in whatever order and not too long, every value returned in any run of whole requests answers the call that returned it |
| Confusion.JunkConfuses | src/milecsa_rpc_session.cpp:245-266 | a concrete run in which junk makes one request fail and the next one return its answer |
| Confusion.OversizedConfuses | include/milecsa_rpc_session.hpp:152-185 | a concrete run in which every request is answered once and in order, one answer is too long for the parser, and a later request returns the answer to the one before it |
| Confusion.MatchingExactly | src/milecsa_rpc_session.cpp:218-270 | values match their calls in all runs iff every write is followed by its read, and either the client connects again after every failed read or the peer sends neither junk nor an oversized answer |
| Confusion.TwoWritesConfuse | include/milecsa_rpc_session.hpp:111-185 | a concrete run in which a read after two writes takes the answer to the first one |
| Session.Session.constructor | src/milecsa_rpc_session.cpp:15-59 | a new session holds its host, its port as decimal text and its target, and has a closed socket, one armed wait, no operation and no deadline |
| Session.Session.WaitDeadline | src/milecsa_rpc_session.cpp:61-76 | the handler closes on a passed expiry, and waits again in any case |
| Session.Session.RunOne | include/milecsa_rpc_session.hpp:130 | runs one ready handler after whatever the environment does, each being one step of the machine, and makes the measure smaller |
| Session.Session.RunLoop | include/milecsa_rpc_session.hpp:130 | the do-while loop ends, as a run of the machine, with the completion code set |
| Session.Session.Call | include/milecsa_rpc_session.hpp:115-141 | one renew-start-loop-check: the verdict, the bounds on handlers and the time limit of the machine hold of the object |
| Session.Session.BeIdle | include/milecsa_rpc_session.hpp:115-118 | between calls time, timer and peer may act; the socket stays open and a clean connection clean |
| Session.Session.Connect | src/milecsa_rpc_session.cpp:88-180 | which calls begin, in order, for each way of resolving, with or without TLS, and with an exception at the start of either operation; true iff the operations of all phases completed without error and the socket is open, else one call of the error handler; NOT_FOUND iff there is no address, FAIL iff the resolver throws or the phase that is reached cannot start its operation, TIMEOUT iff it starts and does not succeed; the connection is clean after any operation; one or two timeouts at most |
| Session.Session.Write | include/milecsa_rpc_session.hpp:111-142 | in any state between calls: true iff the operation completed without error and the socket is open, one TIMEOUT call iff false; a closed socket stays closed, and an open one stays open for a whole timeout; the invariant and the time limit |
| Session.Session.Read | include/milecsa_rpc_session.hpp:151-185 | the same, in any state between calls; after success the message read answers the current call and nothing is outstanding; with a peer that only answers, nothing is outstanding after a failure either |
| Session.Session.Request | src/milecsa_rpc_session.cpp:218-297 | a reply iff write and read both complete without error on an open socket, the read being tried iff the write succeeds; a value and no handler call iff the reply has status 200, parses and has a result; one call of the response handler iff it has another status or no result; else one call of the error handler, TIMEOUT iff write or read fails and FAIL iff the body cannot be written out or the reply does not parse; never connects, and a closed socket stays closed; from a clean connection the value answers this call, and the connection is clean again unless the read fails, and then too with a peer that only answers; two timeouts at most |
| Session.ValuesAnswerTheirCalls | src/milecsa_rpc_session.cpp:218-270 | the matching theorem for session objects after any sequence of method calls in which every write was read |
| Client.Client.Connect | src/milecsa_jsonrpc.cpp:29-66 | joins parser and session: a client iff the URL is accepted and connecting its new session succeeds, else one handler call with the code of the rejection or the failure, or the exception; a client has the URL's fields, its port as text, and a connected, clean session |
| Client.ErrorOf | src/milecsa_url.cpp:44-97 | the parser's codes reach the error handler as they are |
| RpcId.IdCounter.GetNext | include/milecsa_rpc_id.hpp:22-24 | the k-th call gives k modulo 2^64 |
| RpcId.IdOf | include/milecsa_rpc_id.hpp:22-40 | ids count from 0, modulo 2^64 |
| RpcId.IdsRepeatExactly | include/milecsa_rpc_id.hpp:22-44 | two ids are equal iff a multiple of 2^64 calls lies between them |
| IdCheck.ComparingIdsWouldDo | src/milecsa_rpc_session.cpp:245-266 | in any run, under any peer of this model, which answers in any order, and under any use, a returned value has the id of its call iff it answers that call, if fewer than 2^64 ids are given in between |
| IdCheck.ComparingIdsRejectsNothing | src/milecsa_rpc_session.cpp:299-307 | with a peer that only answers and a session used for whole requests, every returned value has the id of its call, even after a wrap-around |
| IdCheck.MissedExactly | include/milecsa_rpc_id.hpp:22-24 | a value has the id of its call iff the ids given from the one call to the other are a multiple of 2^64 in number |
| Transfer.Driver.DoRequest | mile_cli_wallet/mile_cli_transfer.cpp:66-113 | the method is the function whose log TransferLog.LogExactly and TransferLog.FollowsExactly describe, counter and outcome included |
| Transfer.Driver.HandleError | mile_cli_wallet/mile_cli_transfer.cpp:123-136 | the handler counts, exits at the limit or in test mode, and re-enters on FAIL only |
| Transfer.AttemptsBounded | mile_cli_wallet/mile_cli_transfer.cpp:122-138 | on every network at most max(1, opt_reconnections) runs of do_request, each with at most one executed transfer |
| Transfer.AttemptsWithoutConnection | mile_cli_wallet/mile_cli_transfer.cpp:122-136 | if no connection can be made, the attempts are the leading FAILs and one more, but at most max(1, opt_reconnections) |
| Transfer.ReconnectionsExactly | mile_cli_wallet/mile_cli_transfer.cpp:248-250 | never more new connections than promised; as many iff the option promises none; without connections one less iff all codes before the limit are FAIL |
| Transfer.RefusedIsNotRetried | src/milecsa_rpc_session.cpp:161-168 | a connection refused with TIMEOUT makes one attempt under every option; the default of 3 makes three attempts if all fail with FAIL |
| Transfer.TestModeOnce | mile_cli_wallet/mile_cli_transfer.cpp:128-130 | in test mode there is one attempt on every network |
| Transfer.StatusExactly | mile_cli_wallet/mile_cli_transfer.cpp:66-139 | on every network the status is 0 iff the last attempt ends without an error report, or reports an error other than FAIL below the limit and not in test mode |
| Transfer.AcknowledgedExactly | mile_cli_wallet/mile_cli_transfer.cpp:66-139 | the transfer is acknowledged iff the last attempt connects, gets a block id, builds and sends its body and gets a value; then the status is 0 |
| Transfer.StatusZeroProvesNothing | mile_cli_wallet/mile_cli_transfer.cpp:78-139 | under every option a network without block id gives status 0 with nothing sent; so does a TIMEOUT while a retry would be allowed |
| Transfer.NothingAfterTheEnd | mile_cli_wallet/mile_cli_transfer.cpp:107-136 | after an acknowledgement or an error other than FAIL there are only returns: at most one acknowledgement, innermost; nothing lost to a timeout is repeated |
| Transfer.ReadableAnswersSubmitOnce | mile_cli_wallet/mile_cli_transfer.cpp:107-136 | at most one transfer is executed if every answer to an executed transfer parses |
| Transfer.UnreadableAnswersRepeat | src/milecsa_rpc_session.cpp:263-275 | a server whose answers do not parse executes the transfer once per attempt |
| Transfer.ExecutedOnceExactly | mile_cli_wallet/mile_cli_transfer.cpp:122-138 | on every network at most one transfer is executed iff test mode is on or opt_reconnections is at most 1 |
| TransferLog.LogExactly | mile_cli_wallet/mile_cli_transfer.cpp:66-139 | on every network the log, without returns, is what the attempts do by themselves, one after the other, with one FAIL for each exception that an outer attempt catches |
| TransferLog.SentExactly | mile_cli_wallet/mile_cli_transfer.cpp:66-111 | on every network exactly the attempts that connect, get a block id and build a body send a transfer, once each and in order, and none in test mode |
| TransferLog.FollowsExactly | mile_cli_wallet/mile_cli_transfer.cpp:97-136 | on every network the tool exits exactly at an error at the limit or in test mode; any other error is followed by the next attempt iff it is FAIL and by a return else; an acknowledgement follows the sending of the last attempt's transfer; a body is printed in test mode only |
| TransferLog.ExceptionsGoThrough | mile_cli_wallet/mile_cli_transfer.cpp:66-113 | without a failure to connect that is reported from inside the try block, an exception ends the tool at once, and nothing else ends it with one |
| TransferLog.GuardDecides | src/milecsa_rpc_session.cpp:161-173 | the same two attempts with and without that try block around the report: one more FAIL and an exit, or an exception |
| Wallet.Driver.DoRequest | mile_cli_wallet/mile_cli_wallet.cpp:32-75 | the method is the function whose log WalletLog.EventsExactly and WalletLog.FollowsExactly describe |
| Wallet.Driver.HandleError | mile_cli_wallet/mile_cli_wallet.cpp:84-100 | the handler exits on every code but FAIL and at the limit, and else re-enters |
| Wallet.AttemptsBounded | mile_cli_wallet/mile_cli_wallet.cpp:84-102 | at most max(1, opt_reconnections) runs of do_request although they form a tree |
| Wallet.AttemptsWithoutConnection | mile_cli_wallet/mile_cli_wallet.cpp:84-100 | if no connection can be made, the attempts are the leading FAILs and one more, but at most max(1, opt_reconnections) |
| Wallet.ReconnectionsExactly | mile_cli_wallet/mile_cli_wallet.cpp:138-140 | never more new connections than promised; as many iff the option promises none; without connections one less iff all codes before the limit are FAIL |
| Wallet.RefusedIsNotRetried | mile_cli_wallet/mile_cli_wallet.cpp:89-91 | a connection refused with TIMEOUT makes one attempt under every option; the default of 3 makes three attempts if all fail with FAIL |
| Wallet.StatusExactly | mile_cli_wallet/mile_cli_wallet.cpp:48-104 | on every network the exit status is 0 iff the tool has connected and has printed a result for every connection that it made |
| Wallet.StatusOfCalls | mile_cli_wallet/mile_cli_wallet.cpp:48-104 | a printed result without a failed call means status 0, and status 0 means a printed result; if failed calls yield no value, it also means no failed call |
| Wallet.StatusIsLastEvent | mile_cli_wallet/mile_cli_wallet.cpp:32-104 | on every network the exit status is 0 iff printing a result is the last thing the nested runs do |
| Wallet.RecoveredButFailed | mile_cli_wallet/mile_cli_wallet.cpp:48-53 | a network on which the retry prints its result and the tool exits with -1, whenever a retry is allowed |
| Wallet.PrintedMeansZeroExactly | mile_cli_wallet/mile_cli_wallet.cpp:48-104 | a printed result means status 0 on every network iff opt_reconnections is at most 1 |
| WalletLog.EventsExactly | mile_cli_wallet/mile_cli_wallet.cpp:32-100 | on every network each attempt reports its errors in order and then its result, or a first part of this, and all of it if the tool does not exit |
| WalletLog.FollowsExactly | mile_cli_wallet/mile_cli_wallet.cpp:48-100 | on every network an error other than FAIL, a FAIL at the limit and a missing value come last and make the tool exit; any other FAIL is followed by the next attempt; the tool returns iff a result comes last |
| WalletLog.OtherErrorsEnd | mile_cli_wallet/mile_cli_wallet.cpp:89-91 | an error other than FAIL, while connecting or during a call, is never tried again and gives status -1 |

## Left out

- TLS, certificates, name resolution and sockets: only open or closed, and an arbitrary result of each operation, remain.
- The text of HTTP and JSON messages: a reply is its status, whether its body parses, and whether it has a result.
- Session.Session.Request: whether the body can be written out as text is a parameter, and its content and the debug printing are left out.
- Session.Session.Connect: an exception that leaves `run_one` is left out, as every handler there only sets a code or waits again; one at the start of an operation is modelled.
- The destructor of the session: it only releases objects.
- Transfer.AttemptsBounded: transaction building is taken to give a body or none and never to call the handler; an absent request object, which the code does not check for, is left out.
- Boost's own limit on the work of a match, which makes it throw on extreme texts.
- The catch clause "Method error" of the wallet tool (mile_cli_wallet/mile_cli_wallet.cpp:71-73), which would give status 0 with nothing printed: nothing reaches it, as `Client::call` catches all exceptions itself, each cast of the result is guarded by its type, and a parsed JSON value can be written out.
- An exception of the URL parser in the two tools: the address is the same in every attempt, so it ends the first one.
- `Client::call` and the other `get_*` calls: flat dispatch over `request`.
- `get_current_block_id` and `send_transaction`: one request each; what they make of its value appears in the transfer driver.
- `http::Client`: the same write and read with nothing new.
- Keys, signing, command-line parsing, password input, random transaction ids and threads.
