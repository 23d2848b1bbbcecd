/** The URL class of the client: parsing, copying and assigning. */
module Url {
  import opened Wrappers
  import opened Regex
  import opened UrlPattern
  import opened Numerals
  import Rfc3986

  newtype uint16 = n: int | 0 <= n < 0x1_0000

  datatype Protocol = Http | Https | Unknown

  /** The result codes this parser hands to its error handler. */
  datatype Code = EMPTY | NOT_SUPPORTED

  /** What the accessors of a Url object return. */
  datatype Fields = Fields(
    text: string,
    protocol: Protocol,
    host: string,
    port: uint16,
    path: string,
    query: string,
    fragment: string)

  /** The text a C string interface sees: everything before the first NUL. */
  function CStr(s: string): (t: string)
    ensures '\0' !in t && t <= s
    ensures |t| < |s| ==> s[|t|] == '\0'
    ensures '\0' !in s ==> t == s
  {
    if s == "" || s[0] == '\0' then "" else
      assert s == [s[0]] + s[1..];
      [s[0]] + CStr(s[1..])
  }

  lemma CapturedPieces(p: Parts)
    ensures var what := CapturesOf(p);
            && what.Keys == {1, 2, 3, 4, 5, 6} && what[1] == p.scheme && what[2] == p.host
            && what[3] == p.port && what[4] == p.path && what[5] == p.query && what[6] == p.fragment
  {
  }

  function ToUpper(s: string): string {
    if s == "" then "" else [UpperChar(s[0])] + ToUpper(s[1..])
  }

  function UpperChar(c: char): char {
    if 'a' <= c <= 'z' then (c as int - 'a' as int + 'A' as int) as char else c
  }

  /** How parsing ends: with the fields, with one call of the error handler, or with an exception. */
  datatype Outcome = Accepted(fields: Fields) | Rejected(code: Code) | Raised(error: StoiResult)

  /** The supported protocol that a scheme names. */
  function ProtocolOf(scheme: string): Protocol {
    if scheme == "http" then Http else if scheme == "https" then Https else Unknown
  }

  /** The number a port text stands for; the empty text stands for the protocol's own port. */
  function PortOf(protocol: Protocol, port: string): StoiResult {
    if port != "" then Stoi(port) else Value(if protocol == Https then 443 else 80)
  }

  /** What parsing means, in terms of the one-pass scanner. */
  function ParseOutcome(text: string): Outcome {
    if text == "" then Rejected(EMPTY)
    else match Scan(CStr(text))
      case None => Rejected(NOT_SUPPORTED)
      case Some(p) => PartsOutcome(text, p)
  }

  function PartsOutcome(text: string, p: Parts): Outcome {
    var protocol := ProtocolOf(p.scheme);
    if protocol == Unknown then Rejected(NOT_SUPPORTED)
    else match PortOf(protocol, p.port)
      case Value(n) =>
        if 0 <= n < 0x1_0000 then
          Accepted(Fields(text, protocol, p.host, n as uint16, p.path, p.query, ""))
        else
          Rejected(NOT_SUPPORTED)
      case error => Raised(error)
  }

  /** How a call of Parse returns: an object, nothing, or an exception that leaves the call. */
  datatype Returned = Object(url: Url) | Nothing | Exception(error: StoiResult)

  class Url {
    var text: string
    var protocol: Protocol
    var domain: string
    var port: uint16
    var path: string
    var query: string
    var fragment: string

    ghost function View(): Fields
      reads this
    {
      Fields(text, protocol, domain, port, path, query, fragment)
    }

    /** The private constructor: nothing parsed yet. */
    constructor (text: string)
      ensures View() == Fields(text, Unknown, "", 0, "", "", "")
    {
      this.text, protocol, domain, port, path, query, fragment := text, Unknown, "", 0, "", "", "";
    }

    /** The copy constructor leaves the fragment out. */
    constructor Copy(u: Url)
      ensures View() == u.View().(fragment := "")
    {
      text := u.text;
      protocol := u.protocol;
      domain := u.domain;
      port := u.port;
      path := u.path;
      query := u.query;
      fragment := "";
    }

    /** Assignment copies all but the fragment, which keeps its old value. */
    method Assign(u: Url)
      modifies this
      ensures View() == old(u.View()).(fragment := old(fragment))
    {
      text := u.text;
      protocol := u.protocol;
      domain := u.domain;
      port := u.port;
      path := u.path;
      query := u.query;
    }

    /** Parses `urlString`; `calls` lists the calls of the error handler. */
    static method Parse(urlString: string) returns (r: Returned, calls: seq<Code>)
      ensures match ParseOutcome(urlString)
        case Accepted(fields) => r.Object? && fresh(r.url) && r.url.View() == fields && calls == []
        case Rejected(code) => r == Nothing && calls == [code]
        case Raised(error) => r == Exception(error) && calls == []
    {
      if urlString == "" {
        return Nothing, [EMPTY];
      }
      var url := new Url(urlString);
      var what := UrlMatch(CStr(urlString));
      MatchIsScan(CStr(urlString));
      if what.None? {
        return Nothing, [NOT_SUPPORTED];
      }
      ghost var p := Scan(CStr(urlString)).value;
      ScanIsCanonical(CStr(urlString));
      r, calls := url.Fill(what.value, p);
    }

    /** The scheme is compared in upper case. */
    static method ReadProtocol(scheme: string) returns (protocol: Protocol)
      requires scheme in {"http", "https", "ftp"}
      ensures protocol == ProtocolOf(scheme)
    {
      var proto := ToUpper(scheme);
      UpperSchemes(scheme);
      if proto == "HTTP" {
        protocol := Http;
      } else if proto == "HTTPS" {
        protocol := Https;
      } else {
        protocol := Unknown;
      }
    }

    /** The branch of Parse that runs on a match: sets one field after the other. */
    method Fill(what: Captures, ghost p: Parts) returns (r: Returned, calls: seq<Code>)
      requires what == CapturesOf(p) && p.scheme in {"http", "https", "ftp"}
      requires View() == Fields(text, Unknown, "", 0, "", "", "")
      modifies this
      ensures match PartsOutcome(old(text), p)
        case Accepted(fields) => r.Object? && fresh(r.url) && r.url.View() == fields && calls == []
        case Rejected(code) => r == Nothing && calls == [code]
        case Raised(error) => r == Exception(error) && calls == []
    {
      CapturedPieces(p);
      protocol := ReadProtocol(what[1]);
      if protocol == Unknown {
        return Nothing, [NOT_SUPPORTED];
      }
      domain := what[2];
      var portText := what[3];
      if portText == "" {
        port := if protocol == Https then 443 else 80;
      } else {
        var portNum := Stoi(portText);
        if !portNum.Value? {
          return Exception(portNum), [];
        }
        if 0 <= portNum.n <= 65535 {
          port := (portNum.n % 0x1_0000) as uint16;
        } else {
          return Nothing, [NOT_SUPPORTED];
        }
      }
      assert PortOf(protocol, p.port) == Value(port as int);
      path := what[4];
      query := what[5];
      fragment := what[6];
      var copy := new Url.Copy(this);
      return Object(copy), [];
    }
  }

  lemma {:induction false} UpperAt(s: string)
    ensures |ToUpper(s)| == |s|
    ensures forall j :: 0 <= j < |s| ==> ToUpper(s)[j] == UpperChar(s[j])
  {
    if s != "" {
      UpperAt(s[1..]);
    }
  }

  lemma UpperSchemes(s: string)
    requires s in {"http", "https", "ftp"}
    ensures ToUpper(s) == if s == "http" then "HTTP" else if s == "https" then "HTTPS" else "FTP"
  {
    UpperAt(s);
  }

  // ---------- what is accepted ----------

  /** Some reading of the port text as a numeral has this value. */
  ghost predicate ReadsAs(port: string, n: int) {
    exists m: Numeral :: m.Valid() && m.Text() == port && m.Value() == n
  }

  lemma PortReading(port: string)
    ensures Stoi(port) == InvalidArgument <==> forall n :: !ReadsAs(port, n)
    ensures forall n :: ReadsAs(port, n) ==>
              Stoi(port) == if -0x8000_0000 <= n <= 0x7FFF_FFFF then Value(n) else OutOfRange
    ensures forall n :: Stoi(port) == Value(n) ==> ReadsAs(port, n)
    ensures Stoi(port) == OutOfRange <==> Overflows(port)
  {
    StoiExactly(port);
    if !Stoi(port).InvalidArgument? {
      var m: Numeral :| m.Valid() && m.Text() == port;
      assert ReadsAs(port, m.Value());
    }
  }

  /** The port text is a numeral of a value that does not fit an `int`. */
  ghost predicate Overflows(port: string) {
    exists n :: ReadsAs(port, n) && !(-0x8000_0000 <= n <= 0x7FFF_FFFF)
  }

  /** The port text is there, but is no numeral. */
  ghost predicate IsNoNumeral(port: string) {
    port != "" && forall n :: !ReadsAs(port, n)
  }

  /** The port text stands for a port. */
  ghost predicate IsPort(port: string) {
    port == "" || exists n :: 0 <= n <= 65535 && ReadsAs(port, n)
  }

  lemma PartsAccepted(text: string, p: Parts)
    requires ProtocolOf(p.scheme) != Unknown
    ensures PartsOutcome(text, p).Accepted? <==> IsPort(p.port)
    ensures PartsOutcome(text, p) == Raised(InvalidArgument) <==> IsNoNumeral(p.port)
    ensures PartsOutcome(text, p) == Raised(OutOfRange) <==> Overflows(p.port)
    ensures forall n :: PartsOutcome(text, p) != Raised(Value(n))
    ensures PartsOutcome(text, p).Accepted? ==>
              var f := PartsOutcome(text, p).fields;
              && f == Fields(text, ProtocolOf(p.scheme), p.host, f.port, p.path, p.query, "")
              && if p.port == "" then f.port == (if f.protocol == Https then 443 else 80) else ReadsAs(p.port, f.port as int)
  {
    PortReading(p.port);
    NoNumeralIsEmpty();
  }

  lemma NoNumeralIsEmpty()
    ensures !Overflows("")
  {
    forall m: Numeral | m.Valid()
      ensures m.Text() != ""
    {
      assert m.digits != "" && |m.Text()| >= |m.digits|;
    }
  }

  lemma PartsExactly(text: string, p: Parts)
    ensures var known := ProtocolOf(p.scheme) != Unknown;
            && (PartsOutcome(text, p).Accepted? <==> known && IsPort(p.port))
            && (PartsOutcome(text, p) == Raised(InvalidArgument) <==> known && IsNoNumeral(p.port))
            && (PartsOutcome(text, p) == Raised(OutOfRange) <==> known && Overflows(p.port))
            && (forall n :: PartsOutcome(text, p) != Raised(Value(n)))
            && PartsOutcome(text, p) != Rejected(EMPTY)
  {
    if ProtocolOf(p.scheme) != Unknown {
      PartsAccepted(text, p);
    }
  }

  lemma KnownScheme(s: string)
    ensures Scan(s).Some? <==> LooksLikeUrl(s, "http") || LooksLikeUrl(s, "https") || LooksLikeUrl(s, "ftp")
    ensures Scan(s).Some? ==>
              && (ProtocolOf(Scan(s).value.scheme) == Http <==> LooksLikeUrl(s, "http"))
              && (ProtocolOf(Scan(s).value.scheme) == Https <==> LooksLikeUrl(s, "https"))
  {
    MatchExists(s);
    MatchIsScan(s);
    if Scan(s).Some? {
      SchemeOf(s);
    }
  }

  /** Main result: which texts are accepted, which make Parse throw, and which are rejected. */
  lemma ParseExactly(text: string)
    ensures var s := CStr(text);
            var url := LooksLikeUrl(s, "http") || LooksLikeUrl(s, "https");
            var port := if Scan(s).Some? then Scan(s).value.port else "";
            && (ParseOutcome(text).Accepted? <==> url && IsPort(port))
            && (ParseOutcome(text) == Raised(InvalidArgument) <==> url && IsNoNumeral(port))
            && (ParseOutcome(text) == Raised(OutOfRange) <==> url && Overflows(port))
            && (forall n :: ParseOutcome(text) != Raised(Value(n)))
            && (ParseOutcome(text) == Rejected(EMPTY) <==> text == "")
  {
    var s := CStr(text);
    KnownScheme(s);
    if Scan(s).Some? {
      assert text != "";
      PartsExactly(text, Scan(s).value);
    }
  }

  /** The fields of an accepted text are the pieces of the text. */
  lemma AcceptedFields(text: string)
    requires ParseOutcome(text).Accepted?
    ensures var s := CStr(text);
            var f := ParseOutcome(text).fields;
            Scan(s).Some? && var p := Scan(s).value;
            && s == Print(p)
            && f == Fields(text, f.protocol, p.host, f.port, p.path, p.query, "")
            && f.protocol == (if LooksLikeUrl(s, "https") then Https else Http)
            && if p.port == "" then f.port == (if f.protocol == Https then 443 else 80) else ReadsAs(p.port, f.port as int)
  {
    var s := CStr(text);
    var p := Scan(s).value;
    assert ParseOutcome(text) == PartsOutcome(text, p);
    PartsAccepted(text, p);
    KnownScheme(s);
    assert s == Print(Scan(s).value) by {
      ScanRebuilds(s);
    }
  }

  lemma SchemeOf(s: string)
    requires Scan(s).Some?
    ensures Scan(s).value.scheme == "http" <==> LooksLikeUrl(s, "http")
    ensures Scan(s).value.scheme == "https" <==> LooksLikeUrl(s, "https")
  {
    SchemeLengthIs(s);
    ScanExists(s);
    NoSpaceWhole(s);
    var n := SchemeLength(s);
    assert |"http"| == 4 && |"https"| == 5;
    assert Scan(s).value.scheme == s[..n];
  }

  // ---------- the fragment ----------

  /** Where the first '#' of the text is; its length when there is none. */
  function FirstHash(s: string): (f: nat)
    ensures f <= |s|
  {
    RunEnd(Rfc3986.QUERY_CHAR, s, 0)
  }

  /** Before its fragment, the split of Appendix B has passed no '#'. */
  lemma NoHashBefore(s: string, n: nat, e: nat, t: nat, f: nat)
    requires n > 0 && n == SchemeLength(s) && e == RunEnd(Rfc3986.AUTHORITY_CHAR, s, n + 3)
    requires t == RunEnd(Rfc3986.PATH_CHAR, s, e)
    requires f == if t < |s| && s[t] == '?' then RunEnd(Rfc3986.QUERY_CHAR, s, t + 1) else t
    ensures forall j :: 0 <= j < f ==> s[j] != '#'
  {
    assert '#' !in s[..n] && '#' !in s[n..n + 3];
    assert s[..n + 3] == s[..n] + s[n..n + 3];
    assert forall j :: 0 <= j < n + 3 ==> s[j] == s[..n + 3][j];
  }

  lemma HashPosition(s: string, f: nat)
    requires f <= |s| && (forall j :: 0 <= j < f ==> s[j] != '#') && (f < |s| ==> s[f] == '#')
    ensures FirstHash(s) == f
  {
    RunEndUnique(Rfc3986.QUERY_CHAR, s, 0, f);
  }

  /** The fragment of Appendix B of RFC 3986 is what follows the first '#'. */
  lemma RfcFragmentIs(s: string)
    requires SchemeLength(s) > 0
    ensures var r := Rfc3986.RfcSplit(s);
            var f := FirstHash(s);
            && r.Some? && (9 in r.value <==> f < |s|) && (f < |s| ==> r.value[9] == s[f + 1..])
  {
    Rfc3986.SplitOfUrl(s);
    var n := SchemeLength(s);
    var e := RunEnd(Rfc3986.AUTHORITY_CHAR, s, n + 3);
    var t := RunEnd(Rfc3986.PATH_CHAR, s, e);
    var f := if t < |s| && s[t] == '?' then RunEnd(Rfc3986.QUERY_CHAR, s, t + 1) else t;
    assert FirstHash(s) == f by {
      NoHashBefore(s, n, e, t, f);
      HashPosition(s, f);
    }
    var caps: Captures := map[2 := s[..n], 1 := s[..n + 1], 4 := s[n + 3..e], 3 := s[n + 1..e], 5 := s[e..t]];
    FragmentCapture(s, t, f, caps);
  }

  lemma FragmentCapture(s: string, t: nat, f: nat, caps: Captures)
    requires t <= |s| && 9 !in caps
    requires f == if t < |s| && s[t] == '?' then RunEnd(Rfc3986.QUERY_CHAR, s, t + 1) else t
    ensures var r := Rfc3986.QueryCaptures(s, t, caps);
            (9 in r <==> f < |s|) && (f < |s| ==> r[9] == s[f + 1..])
  {
  }

  /** The returned fragment is always empty, so it is the URL's fragment exactly when the text has
    * no '#' or has it as its last character. */
  lemma ReturnedFragment(text: string)
    requires ParseOutcome(text).Accepted?
    ensures var s := CStr(text);
            var r := Rfc3986.RfcSplit(s);
            && r.Some?
            && (ParseOutcome(text).fields.fragment == (if 9 in r.value then r.value[9] else "")
                <==> FirstHash(s) + 1 >= |s|)
  {
    var s := CStr(text);
    RfcFragmentIs(s);
  }

  lemma OutcomeOfPrinted(p: Parts)
    requires Canonical(p) && '\0' !in Print(p)
    ensures ParseOutcome(Print(p)) == PartsOutcome(Print(p), p)
  {
    PrintThenScan(p);
    NoNul(Print(p));
  }

  lemma NoNul(s: string)
    requires '\0' !in s
    ensures CStr(s) == s
  {
  }

  /** Whatever the fragment of a printed URL is, the returned one is empty. */
  lemma FragmentDropped(p: Parts)
    requires Canonical(p) && '\0' !in Print(p) && p.port == "" && ProtocolOf(p.scheme) != Unknown
    ensures ParseOutcome(Print(p)).Accepted? && ParseOutcome(Print(p)).fields.fragment == ""
  {
    OutcomeOfPrinted(p);
  }

  /** An input whose fragment is lost: http://h/#f. */
  lemma FragmentLost()
    ensures var p := Parts("http", "h", false, "", "/", false, "", true, "f");
            && Canonical(p) && p.fragment == "f"
            && ParseOutcome(Print(p)).Accepted? && ParseOutcome(Print(p)).fields.fragment == ""
  {
    var p := Parts("http", "h", false, "", "/", false, "", true, "f");
    PrintedCharacters(p);
    FragmentDropped(p);
  }

  lemma PrintedCharacters(p: Parts)
    requires NulFree(p)
    ensures '\0' !in Print(p)
  {
    assert '\0' !in PrintTail(p);
  }

  // ---------- the port text ----------

  /** The session keeps the port as text: the decimal numeral of the number. */
  function SessionPort(port: uint16): string {
    ToDecimal(port as nat)
  }

  /** The same URL with its port spelled out in canonical decimal. */
  function Respelled(p: Parts, port: uint16): Parts {
    p.(colon := true, port := SessionPort(port))
  }

  lemma RespelledIsCanonical(p: Parts, port: uint16)
    requires Canonical(p)
    ensures Canonical(Respelled(p, port))
  {
    var d := SessionPort(port);
    assert forall j :: 0 <= j < |d| ==> IsDigit(d[j], 10);
  }

  ghost predicate NulFree(p: Parts) {
    forall t :: t in {p.scheme, p.host, p.port, p.path, p.query, p.fragment} ==> '\0' !in t
  }

  lemma ScannedNoNul(s: string)
    requires Scan(s).Some? && '\0' !in s
    ensures NulFree(Scan(s).value)
  {
    var p := Scan(s).value;
    ScanRebuilds(s);
    assert forall c :: c in PrintTail(p) ==> c in Print(p);
  }

  lemma RespelledHasNoNul(p: Parts, port: uint16)
    requires NulFree(p)
    ensures '\0' !in Print(Respelled(p, port))
  {
    var d := SessionPort(port);
    assert forall j :: 0 <= j < |d| ==> IsDigit(d[j], 10);
    assert '\0' !in d;
    PrintedCharacters(Respelled(p, port));
  }

  lemma RespelledOutcome(text: string, p: Parts, text': string)
    requires PartsOutcome(text, p).Accepted?
    ensures var f := PartsOutcome(text, p).fields;
            PartsOutcome(text', Respelled(p, f.port)) == Accepted(f.(text := text'))
  {
    DecimalRoundTrip(PartsOutcome(text, p).fields.port as nat);
  }

  /** Main result: whatever spelling of the port was accepted (decimal, octal, hexadecimal, or
    * none at all), the text the session resolves with is a numeral of the same number, and a URL
    * with that text in its place parses to the same fields. */
  lemma PortTextRoundTrip(text: string)
    requires ParseOutcome(text).Accepted?
    ensures var f := ParseOutcome(text).fields;
            var text' := Print(Respelled(Scan(CStr(text)).value, f.port));
            && Stoi(SessionPort(f.port)) == Value(f.port as int)
            && ParseOutcome(text') == Accepted(f.(text := text'))
  {
    var s := CStr(text);
    var f := ParseOutcome(text).fields;
    var p := Scan(s).value;
    var p' := Respelled(p, f.port);
    DecimalRoundTrip(f.port as nat);
    RespelledOutcome(text, p, Print(p'));
    assert ParseOutcome(Print(p')) == PartsOutcome(Print(p'), p') by {
      ScanIsCanonical(s);
      RespelledIsCanonical(p, f.port);
      ScannedNoNul(s);
      RespelledHasNoNul(p, f.port);
      OutcomeOfPrinted(p');
    }
  }
}
