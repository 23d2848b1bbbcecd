/** The client object: a parsed URL and a connected session. */
module Client {
  import opened Messages
  import U = Url
  import S = Session
  import N = Numerals
  import EventLoop
  import Connection

  /** How a call of Client::Connect returns: a client, nothing, or an exception of the URL parser. */
  datatype Connected = Ready(client: Client) | NoClient | Exception(error: N.StoiResult)

  function ErrorOf(code: U.Code): (e: ErrorCode)
    ensures code == U.EMPTY <==> e == ErrorCode.EMPTY
    ensures code == U.NOT_SUPPORTED <==> e == ErrorCode.NOT_SUPPORTED
  {
    match code
    case EMPTY => ErrorCode.EMPTY
    case NOT_SUPPORTED => ErrorCode.NOT_SUPPORTED
  }

  class Client {
    const url: U.Url
    const session: S.Session

    constructor (url: U.Url, timeout: nat, prompt: bool, now: int)
      ensures this.url == url && fresh(session)
      ensures session.Valid() && session.Quiet() && session.Orderly() && session.Clean()
      ensures Connection.NoJunk(session.View()) && session.View() == Connection.Init(now)
      ensures session.useSsl == (url.protocol == U.Https) && session.timeout == timeout && session.prompt == prompt
      ensures session.trace == []
      ensures session.host == url.domain && session.target == url.path && session.port == N.ToDecimal(url.port as nat)
    {
      this.url := url;
      session := new S.Session(url.domain, url.port as nat, url.path, url.protocol == U.Https, timeout, prompt, now);
    }

    /** Parses the URL, makes a session for it and connects; `calls` lists the error handler's calls,
      * `run` is what the session did. */
    static method Connect(urlString: string, timeout: nat, prompt: bool, now: int, input: S.ConnectInput)
      returns (r: Connected, calls: seq<ErrorCode>,
               ghost first: seq<EventLoop.Action>, ghost second: seq<EventLoop.Action>, ghost run: seq<EventLoop.Action>)
      ensures match U.ParseOutcome(urlString)
        case Raised(error) => r == Exception(error) && calls == []
        case Rejected(code) => r == NoClient && calls == [ErrorOf(code)]
        case Accepted(f) =>
          var ssl := f.protocol == U.Https;
          && !r.Exception? && (r.Ready? <==> calls == [])
          && S.Connects(timeout, Connection.Init(now), ssl, input, first, second, run, calls)
      ensures r.Ready? ==>
                var f := U.ParseOutcome(urlString).fields;
                var s := r.client.session;
                && fresh(s) && s.Valid() && s.Quiet() && s.Orderly() && s.Clean() && s.Loop().Verdict()
                && s.trace == run && Connection.Reaches(timeout, Connection.Init(now), run, s.View())
                && (Connection.WellFormed(run) ==> Connection.NoJunk(s.View()))
                && r.client.url.View() == f
                && s.host == f.host && s.target == f.path && s.port == U.SessionPort(f.port)
                && (s.useSsl <==> f.protocol == U.Https)
                && (prompt ==> s.now <= now + (if s.useSsl then 2 else 1) * timeout)
    {
      first, second, run := [], [], [];
      var parsed, codes := U.Url.Parse(urlString);
      match parsed {
        case Exception(error) => r, calls := Exception(error), [];
        case Nothing => r, calls := NoClient, [ErrorOf(codes[0])];
        case Object(url) =>
          var client := new Client(url, timeout, prompt, now);
          var ok;
          ok, calls, first, second, run := client.session.Connect(input);
          r := if ok then Ready(client) else NoClient;
      }
    }
  }
}
