/** The component split of Appendix B of RFC 3986, run by the same matcher, and when the
  * captures of the URL parser agree with it. */
module Rfc3986 {
  import opened Wrappers
  import opened Regex
  import opened UrlPattern

  const SCHEME_CHAR := NoneOf({':', '/', '?', '#'})
  const AUTHORITY_CHAR := NoneOf({'/', '?', '#'})
  const PATH_CHAR := NoneOf({'?', '#'})
  const QUERY_CHAR := NoneOf({'#'})
  const ANY := NoneOf({})

  // ^(([^:/?#]+):)?(//([^/?#]*))?([^?#]*)(\?([^#]*))?(#(.*))?, last piece first

  function RfcFragment(): Goals {
    Try(Maybe(Group(8, Then(One(OneOf({'#'})), Group(9, Many(ANY))))), Done)
  }

  function RfcQuery(): Goals {
    Try(Maybe(Group(6, Then(One(OneOf({'?'})), Group(7, Many(QUERY_CHAR))))), RfcFragment())
  }

  function RfcPath(): Goals { Try(Group(5, Many(PATH_CHAR)), RfcQuery()) }

  function RfcAuthority(): Goals {
    Try(Maybe(Group(3, Then(Literal("//"), Group(4, Many(AUTHORITY_CHAR))))), RfcPath())
  }

  function RfcGoals(): Goals {
    Try(Maybe(Group(1, Then(Group(2, Then(One(SCHEME_CHAR), Many(SCHEME_CHAR))), One(OneOf({':'}))))), RfcAuthority())
  }

  /** The captures of the regular expression of Appendix B; an undefined component has no capture. */
  function RfcSplit(s: string): Option<Captures> {
    Match(RfcGoals(), s, 0, map[])
  }

  /** A delimited component: the delimiter, then the longest run, and both closed in turn. */
  lemma Delimited(c: char, outer: nat, inner: nat, k: Class, rest: Goals, s: string, i: nat, caps: Captures)
    requires i < |s| && s[i] == c
    requires var e := RunEnd(k, s, i + 1);
             Match(rest, s, e, caps[inner := s[i + 1..e]][outer := s[i..e]]).Some?
    ensures var e := RunEnd(k, s, i + 1);
            Match(Try(Maybe(Group(outer, Then(One(OneOf({c})), Group(inner, Many(k))))), rest), s, i, caps)
            == Match(rest, s, e, caps[inner := s[i + 1..e]][outer := s[i..e]])
  {
    var e := RunEnd(k, s, i + 1);
    var closeOuter := Close(outer, i, rest);
    var closeInner := Close(inner, i + 1, closeOuter);
    assert Match(closeInner, s, e, caps) == Match(closeOuter, s, e, caps[inner := s[i + 1..e]]);
    GreedyRun(k, closeInner, s, i + 1, caps);
    var body := Then(One(OneOf({c})), Group(inner, Many(k)));
    var piece := Try(Group(inner, Many(k)), closeOuter);
    assert Match(Try(Group(outer, body), rest), s, i, caps) == Match(Try(body, closeOuter), s, i, caps);
    assert Match(Try(body, closeOuter), s, i, caps) == Match(Try(One(OneOf({c})), piece), s, i, caps);
    assert Match(piece, s, i + 1, caps) == Match(Try(Many(k), closeInner), s, i + 1, caps);
  }

  /** An absent component is skipped. */
  lemma NotDelimited(c: char, outer: nat, inner: nat, k: Class, rest: Goals, s: string, i: nat, caps: Captures)
    requires i <= |s| && (i < |s| ==> s[i] != c)
    ensures Match(Try(Maybe(Group(outer, Then(One(OneOf({c})), Group(inner, Many(k))))), rest), s, i, caps)
         == Match(rest, s, i, caps)
  {
    var closeOuter := Close(outer, i, rest);
    var body := Then(One(OneOf({c})), Group(inner, Many(k)));
    assert Match(Try(Group(outer, body), rest), s, i, caps) == Match(Try(body, closeOuter), s, i, caps);
    assert Match(Try(body, closeOuter), s, i, caps)
        == Match(Try(One(OneOf({c})), Try(Group(inner, Many(k)), closeOuter)), s, i, caps);
  }

  /** The captures from the fragment delimiter on. */
  function FragmentCaptures(s: string, i: nat, caps: Captures): Captures
    requires i <= |s|
  {
    if i < |s| then caps[9 := s[i + 1..]][8 := s[i..]] else caps
  }

  /** The captures from the query delimiter on. */
  function QueryCaptures(s: string, i: nat, caps: Captures): Captures
    requires i <= |s|
  {
    if i < |s| && s[i] == '?' then
      var e := RunEnd(QUERY_CHAR, s, i + 1);
      FragmentCaptures(s, e, caps[7 := s[i + 1..e]][6 := s[i..e]])
    else
      FragmentCaptures(s, i, caps)
  }

  lemma MatchRfcFragment(s: string, i: nat, caps: Captures)
    requires i <= |s| && (i < |s| ==> s[i] == '#')
    ensures Match(RfcFragment(), s, i, caps) == Some(FragmentCaptures(s, i, caps))
  {
    if i < |s| {
      RunEndUnique(ANY, s, i + 1, |s|);
      assert s[i + 1..|s|] == s[i + 1..] && s[i..|s|] == s[i..];
      Delimited('#', 8, 9, ANY, Done, s, i, caps);
    } else {
      NotDelimited('#', 8, 9, ANY, Done, s, i, caps);
    }
  }

  lemma MatchRfcQuery(s: string, i: nat, caps: Captures)
    requires i <= |s| && (i < |s| ==> s[i] in {'?', '#'})
    ensures Match(RfcQuery(), s, i, caps) == Some(QueryCaptures(s, i, caps))
  {
    if i < |s| && s[i] == '?' {
      var e := RunEnd(QUERY_CHAR, s, i + 1);
      MatchRfcFragment(s, e, caps[7 := s[i + 1..e]][6 := s[i..e]]);
      Delimited('?', 6, 7, QUERY_CHAR, RfcFragment(), s, i, caps);
    } else {
      MatchRfcFragment(s, i, caps);
      NotDelimited('?', 6, 7, QUERY_CHAR, RfcFragment(), s, i, caps);
    }
  }

  lemma MatchRfcPath(s: string, i: nat, caps: Captures)
    requires i <= |s|
    ensures var t := RunEnd(PATH_CHAR, s, i);
            Match(RfcPath(), s, i, caps) == Some(QueryCaptures(s, t, caps[5 := s[i..t]]))
  {
    var t := RunEnd(PATH_CHAR, s, i);
    MatchRfcQuery(s, t, caps[5 := s[i..t]]);
    var close := Close(5, i, RfcQuery());
    assert Match(close, s, t, caps) == Match(RfcQuery(), s, t, caps[5 := s[i..t]]);
    GreedyRun(PATH_CHAR, close, s, i, caps);
  }

  lemma MatchRfcAuthority(s: string, i: nat, caps: Captures)
    requires i + 2 <= |s| && s[i..i + 2] == "//"
    ensures var e := RunEnd(AUTHORITY_CHAR, s, i + 2);
            Match(RfcAuthority(), s, i, caps)
            == Match(RfcPath(), s, e, caps[4 := s[i + 2..e]][3 := s[i..e]])
    ensures Match(RfcAuthority(), s, i, caps).Some?
  {
    var e := RunEnd(AUTHORITY_CHAR, s, i + 2);
    MatchRfcPath(s, e, caps[4 := s[i + 2..e]][3 := s[i..e]]);
    var close3 := Close(3, i, RfcPath());
    var close4 := Close(4, i + 2, close3);
    assert Match(close4, s, e, caps) == Match(close3, s, e, caps[4 := s[i + 2..e]]);
    GreedyRun(AUTHORITY_CHAR, close4, s, i + 2, caps);
    var inner := Group(4, Many(AUTHORITY_CHAR));
    var body := Then(Literal("//"), inner);
    assert Match(Try(Group(3, body), RfcPath()), s, i, caps) == Match(Try(body, close3), s, i, caps);
    assert Match(Try(body, close3), s, i, caps) == Match(Try(Literal("//"), Try(inner, close3)), s, i, caps);
    LiteralMatch("//", Try(inner, close3), s, i, caps);
    assert "//" <= s[i..] by {
      assert s[i..][..2] == s[i..i + 2];
    }
    assert Match(Try(inner, close3), s, i + 2, caps) == Match(Try(Many(AUTHORITY_CHAR), close4), s, i + 2, caps);
  }

  /** The components of a text that starts with one of the schemes and "://". */
  lemma SplitOfUrl(s: string)
    requires SchemeLength(s) > 0
    ensures var n := SchemeLength(s);
            var e := RunEnd(AUTHORITY_CHAR, s, n + 3);
            var t := RunEnd(PATH_CHAR, s, e);
            RfcSplit(s) == Some(QueryCaptures(s, t,
              map[2 := s[..n], 1 := s[..n + 1], 4 := s[n + 3..e], 3 := s[n + 1..e], 5 := s[e..t]]))
  {
    var n := SchemeLength(s);
    SchemeRun(s);
    var close1 := Close(1, 0, RfcAuthority());
    var colon := Try(One(OneOf({':'})), close1);
    var close2 := Close(2, 0, colon);
    var caps: Captures := map[2 := s[..n]];
    var e := RunEnd(AUTHORITY_CHAR, s, n + 3);
    assert s[n..n + 3][0] == ':' && s[n + 1..n + 3] == s[n..n + 3][1..];
    MatchRfcAuthority(s, n + 1, caps[1 := s[..n + 1]]);
    MatchRfcPath(s, e, caps[1 := s[..n + 1]][4 := s[n + 3..e]][3 := s[n + 1..e]]);
    assert Match(close2, s, n, map[]) == Match(colon, s, n, caps);
    assert Match(colon, s, n, caps) == Match(close1, s, n + 1, caps);
    GreedyRun(SCHEME_CHAR, close2, s, 1, map[]);
    SchemeGroupHead(s);
  }

  lemma SchemeGroupHead(s: string)
    requires s != "" && SCHEME_CHAR.Has(s[0])
    ensures var close2 := Close(2, 0, Try(One(OneOf({':'})), Close(1, 0, RfcAuthority())));
            RfcSplit(s) == OrElse(Match(Try(Many(SCHEME_CHAR), close2), s, 1, map[]), Match(RfcAuthority(), s, 0, map[]))
  {
    var close1 := Close(1, 0, RfcAuthority());
    var colon := One(OneOf({':'}));
    var close2 := Close(2, 0, Try(colon, close1));
    var run := Then(One(SCHEME_CHAR), Many(SCHEME_CHAR));
    var body := Then(Group(2, run), colon);
    assert Match(Try(Group(1, body), RfcAuthority()), s, 0, map[]) == Match(Try(body, close1), s, 0, map[]);
    assert Match(Try(body, close1), s, 0, map[]) == Match(Try(Group(2, run), Try(colon, close1)), s, 0, map[]);
    assert Match(Try(Group(2, run), Try(colon, close1)), s, 0, map[]) == Match(Try(run, close2), s, 0, map[]);
    assert Match(Try(run, close2), s, 0, map[])
        == Match(Try(One(SCHEME_CHAR), Try(Many(SCHEME_CHAR), close2)), s, 0, map[]);
  }

  lemma SchemeRun(s: string)
    requires SchemeLength(s) > 0
    ensures SCHEME_CHAR.Has(s[0]) && RunEnd(SCHEME_CHAR, s, 1) == SchemeLength(s)
  {
    var n := SchemeLength(s);
    assert forall j :: 0 <= j < n ==> s[j] == s[..n][j] && SCHEME_CHAR.Has(s[..n][j]);
    assert s[n] == s[n..n + 3][0];
    RunEndUnique(SCHEME_CHAR, s, 1, n);
  }

  // ---------- agreement ----------

  /** The authority of section 3.2 of RFC 3986 in this parser's pieces. */
  function Authority(p: Parts): string {
    p.host + (Bit(p.colon, ':') + p.port)
  }

  predicate AgreesBefore(p: Parts, r: Captures) {
    && 2 in r && r[2] == p.scheme
    && 4 in r && r[4] == Authority(p)
    && 5 in r && r[5] == p.path
  }

  /** Component for component, the captures say what Appendix B says. */
  predicate Agrees(p: Parts, r: Captures) {
    && AgreesBefore(p, r)
    && (7 in r <==> p.mark) && (p.mark ==> r[7] == p.query)
    && (9 in r <==> p.hash) && (p.hash ==> r[9] == p.fragment)
  }

  /** In single characters: where the components of Appendix B begin and end, on a URL text. */
  lemma RfcExactly(s: string) returns (e: nat, t: nat, q: nat)
    requires SchemeLength(s) > 0
    ensures SchemeLength(s) + 3 <= e <= t <= q <= |s|
    ensures forall j :: SchemeLength(s) + 3 <= j < e ==> s[j] !in {'/', '?', '#'}
    ensures e < |s| ==> s[e] in {'/', '?', '#'}
    ensures forall j :: e <= j < t ==> s[j] !in {'?', '#'}
    ensures t < |s| ==> s[t] in {'?', '#'}
    ensures if t < |s| && s[t] == '?' then t < q && forall j :: t < j < q ==> s[j] != '#' else q == t
    ensures q < |s| ==> s[q] == '#'
    ensures RfcSplit(s).Some?
    ensures var n, r := SchemeLength(s), RfcSplit(s).value;
            && 2 in r && r[2] == s[..n] && 4 in r && r[4] == s[n + 3..e] && 5 in r && r[5] == s[e..t]
            && (7 in r <==> t < q) && (t < q ==> r[7] == s[t + 1..q])
            && (9 in r <==> q < |s|) && (q < |s| ==> r[9] == s[q + 1..])
  {
    SplitOfUrl(s);
    var n := SchemeLength(s);
    e := RunEnd(AUTHORITY_CHAR, s, n + 3);
    t := RunEnd(PATH_CHAR, s, e);
    q := if t < |s| && s[t] == '?' then RunEnd(QUERY_CHAR, s, t + 1) else t;
    var caps: Captures := map[2 := s[..n], 1 := s[..n + 1], 4 := s[n + 3..e], 3 := s[n + 1..e], 5 := s[e..t]];
    QueryCapturesKeep(s, t, caps, 2);
    QueryCapturesKeep(s, t, caps, 4);
    QueryCapturesKeep(s, t, caps, 5);
    LateCaptures(s, t, q, caps);
  }

  lemma LateCaptures(s: string, t: nat, q: nat, caps: Captures)
    requires t <= |s| && 7 !in caps && 9 !in caps
    requires t < |s| ==> s[t] in {'?', '#'}
    requires q == if t < |s| && s[t] == '?' then RunEnd(QUERY_CHAR, s, t + 1) else t
    ensures var r := QueryCaptures(s, t, caps);
            && (7 in r <==> t < q) && (t < q ==> r[7] == s[t + 1..q])
            && (9 in r <==> q < |s|) && (q < |s| ==> r[9] == s[q + 1..])
  {
  }

  /** The authority ends at a slash or at the end of the text, not at a '?' or a '#'. */
  predicate AuthorityEndsAtPath(s: string) {
    var n := SchemeLength(s);
    n > 0 && var e := RunEnd(AUTHORITY_CHAR, s, n + 3); e == |s| || s[e] == '/'
  }

  /** Without spaces, this parser's path and query runs are those of Appendix B. */
  lemma SameRuns(s: string, i: nat)
    requires i <= |s| && NoSpace(s, i)
    ensures RunEnd(PATH_CHAR, s, i) == RunEnd(PATH, s, i)
    ensures RunEnd(QUERY_CHAR, s, i) == RunEnd(QUERY, s, i)
  {
    RunEndUnique(PATH_CHAR, s, i, RunEnd(PATH, s, i));
    RunEndUnique(QUERY_CHAR, s, i, RunEnd(QUERY, s, i));
  }

  lemma AuthorityText(s: string, h: nat)
    requires h <= |s|
    ensures var h1 := RunEnd(HOST, s, h);
            var p0 := Skip(':', s, h1);
            var p1 := RunEnd(PORT, s, p0);
            s[h..p1] == s[h..h1] + (Bit(h1 < p0, ':') + s[p0..p1])
  {
    var h1 := RunEnd(HOST, s, h);
    var p0 := Skip(':', s, h1);
    var p1 := RunEnd(PORT, s, p0);
    Slices(s, h, h1, p1);
    Slices(s, h1, p0, p1);
  }

  lemma Slices(s: string, i: nat, j: nat, k: nat)
    requires i <= j <= k <= |s|
    ensures s[i..k] == s[i..j] + s[j..k]
  {
  }

  lemma AuthoritySlash(s: string, h: nat)
    requires h <= |s|
    ensures var p1 := RunEnd(PORT, s, Skip(':', s, RunEnd(HOST, s, h)));
            NoSlash(s, h, p1) && (NoSpace(s, h) && p1 < |s| ==> s[p1] == '/')
  {
  }

  lemma AgreeingQuery(s: string, t: nat, caps: Captures)
    requires t <= |s| && NoSpace(s, t) && (t < |s| ==> s[t] in {'?', '#'})
    requires 7 !in caps && 9 !in caps
    ensures var q0 := Skip('?', s, t);
            var q1 := RunEnd(QUERY, s, q0);
            var f0 := Skip('#', s, q1);
            var r := QueryCaptures(s, t, caps);
            && (7 in r <==> t < q0) && (t < q0 ==> r[7] == s[q0..q1])
            && (9 in r <==> q1 < f0) && (q1 < f0 ==> r[9] == s[f0..])
  {
    SameRuns(s, Skip('?', s, t));
    if t < |s| && s[t] == '#' {
      RunEndUnique(QUERY, s, t, t);
    }
  }

  lemma AgreeingPath(s: string, e: nat)
    requires e <= |s| && NoSpace(s, e) && (e < |s| ==> s[e] == '/')
    ensures RunEnd(PATH_CHAR, s, e) == RunEnd(PATH, s, Skip('/', s, e))
  {
    SameRuns(s, e);
    RunEndUnique(PATH, s, Skip('/', s, e), RunEnd(PATH, s, e));
  }

  ghost predicate NoSlash(s: string, lo: nat, hi: nat)
    requires hi <= |s|
  {
    forall j :: lo <= j < hi ==> s[j] != '/'
  }

  /** Where this parser's authority ends, and what it holds. */
  lemma ScannedAuthority(s: string, p: Parts) returns (p1: nat)
    requires Scan(s) == Some(p)
    ensures var h := SchemeLength(s) + 3;
            && h <= p1 <= |s| && p1 == RunEnd(PORT, s, Skip(':', s, RunEnd(HOST, s, h)))
            && Authority(p) == s[h..p1] && NoSlash(s, h, p1) && NoSpace(s, p1) && (p1 < |s| ==> s[p1] == '/')
  {
    p1 := ScanDissected(s, p);
    ScannedNoSpace(s);
    AuthorityPieces(s, SchemeLength(s) + 3, p, p1);
  }

  lemma ScannedNoSpace(s: string)
    requires Scan(s).Some?
    ensures NoSpace(s, SchemeLength(s) + 3)
  {
    SpaceStopsScan(s, s[..SchemeLength(s)], SchemeLength(s) + 3);
  }

  lemma AuthorityPieces(s: string, h: nat, p: Parts, p1: nat)
    requires h <= |s| && AuthorityScanned(s, h, p, p1) && NoSpace(s, h)
    ensures h <= p1 <= |s| && p1 == RunEnd(PORT, s, Skip(':', s, RunEnd(HOST, s, h)))
    ensures Authority(p) == s[h..p1] && NoSlash(s, h, p1) && (p1 < |s| ==> s[p1] == '/')
  {
    AuthorityText(s, h);
    AuthoritySlash(s, h);
  }

  lemma AgreesAtPath(s: string, p: Parts)
    requires Scan(s) == Some(p) && AuthorityEndsAtPath(s)
    ensures RfcSplit(s).Some? && Agrees(p, RfcSplit(s).value)
  {
    var p1 := ScannedAuthority(s, p);
    SplitOfUrl(s);
    var n := SchemeLength(s);
    var e := RunEnd(AUTHORITY_CHAR, s, n + 3);
    AuthorityEnd(s, n + 3, e, p1);
    var t := RunEnd(PATH_CHAR, s, e);
    AgreeingPath(s, e);
    var caps: Captures := map[2 := s[..n], 1 := s[..n + 1], 4 := s[n + 3..e], 3 := s[n + 1..e], 5 := s[e..t]];
    AgreeingQuery(s, t, caps);
    ComponentsKept(p, s, t, caps);
  }

  lemma ComponentsKept(p: Parts, s: string, t: nat, caps: Captures)
    requires t <= |s| && AgreesBefore(p, caps)
    ensures AgreesBefore(p, QueryCaptures(s, t, caps))
  {
    QueryCapturesKeep(s, t, caps, 2);
    QueryCapturesKeep(s, t, caps, 4);
    QueryCapturesKeep(s, t, caps, 5);
  }

  /** The two readings of the authority end together, or Appendix B's at a '?' or '#' before. */
  lemma AuthorityEnd(s: string, h: nat, e: nat, p1: nat)
    requires h <= p1 <= |s| && e == RunEnd(AUTHORITY_CHAR, s, h)
    requires NoSlash(s, h, p1) && (p1 < |s| ==> s[p1] == '/')
    ensures e == p1 || (e < p1 && s[e] in {'?', '#'})
    ensures e == |s| || s[e] == '/' ==> e == p1
    ensures e == p1 ==> e == |s| || s[e] == '/'
  {
  }

  lemma QueryCapturesKeep(s: string, i: nat, caps: Captures, k: nat)
    requires i <= |s| && k in caps && k < 6
    ensures k in QueryCaptures(s, i, caps) && QueryCaptures(s, i, caps)[k] == caps[k]
  {
  }

  lemma RfcAuthorityCapture(s: string)
    requires SchemeLength(s) > 0
    ensures var h := SchemeLength(s) + 3;
            RfcSplit(s).Some? && 4 in RfcSplit(s).value
            && RfcSplit(s).value[4] == s[h..RunEnd(AUTHORITY_CHAR, s, h)]
  {
    SplitOfUrl(s);
    var n := SchemeLength(s);
    var e := RunEnd(AUTHORITY_CHAR, s, n + 3);
    var t := RunEnd(PATH_CHAR, s, e);
    QueryCapturesKeep(s, t, map[2 := s[..n], 1 := s[..n + 1], 4 := s[n + 3..e], 3 := s[n + 1..e], 5 := s[e..t]], 4);
  }

  lemma InMiddle(s: string, h: nat, e: nat, p1: nat)
    requires h <= e < p1 <= |s|
    ensures s[e] in s[h..p1] && |s[h..e]| < |s[h..p1]|
  {
    assert s[h..p1][e - h] == s[e];
  }

  lemma AbsorbedBeforePath(s: string, p: Parts)
    requires Scan(s) == Some(p) && !AuthorityEndsAtPath(s)
    ensures RfcSplit(s).Some? && !Agrees(p, RfcSplit(s).value)
    ensures '?' in Authority(p) || '#' in Authority(p)
  {
    assert SchemeLength(s) > 0;
    RfcAuthorityCapture(s);
    var h := SchemeLength(s) + 3;
    var e := RunEnd(AUTHORITY_CHAR, s, h);
    var p1 := ScannedAuthority(s, p);
    AuthorityEnd(s, h, e, p1);
    InMiddle(s, h, e, p1);
  }

  /** The parser's captures of this text are its components by Appendix B. */
  predicate SameComponents(s: string) {
    match (Scan(s), RfcSplit(s))
    case (Some(p), Some(r)) => Agrees(p, r)
    case _ => false
  }

  /** Main result: on every text the parser matches, its captures are the components of Appendix B
    * exactly when the authority is followed by '/' or the end of the text.  (Otherwise the '?' or
    * '#' that ends the authority is in the host or the port capture: AbsorbedBeforePath.) */
  lemma AgreementWithRfc(s: string)
    requires UrlMatch(s).Some?
    ensures SameComponents(s) <==> AuthorityEndsAtPath(s)
  {
    MatchIsScan(s);
    if AuthorityEndsAtPath(s) {
      AgreesAtPath(s, Scan(s).value);
    } else {
      AbsorbedBeforePath(s, Scan(s).value);
    }
  }
}
