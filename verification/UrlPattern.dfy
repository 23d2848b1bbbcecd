/** The regular expression of the URL parser, and the one-pass scanner it is equal to. */
module UrlPattern {
  import opened Wrappers
  import opened Regex

  const HOST := NoneOf({'/', ' ', ':'})
  const PORT := NoneOf({'/', ' '})
  const PATH := NoneOf({' ', '#', '?'})
  const QUERY := NoneOf({' ', '#'})
  const FRAGMENT := NoneOf({' '})

  function Optional(c: char): Regex {
    Maybe(One(OneOf({c})))
  }

  // (https?|ftp)://([^/ :]+):?([^/ ]*)(/?[^ #?]*)\x3f?([^ #]*)#?([^ ]*), last piece first

  function FragmentGoals(): Goals { Try(Group(6, Many(FRAGMENT)), Done) }

  function HashGoals(): Goals { Try(Optional('#'), FragmentGoals()) }

  function QueryGoals(): Goals { Try(Group(5, Many(QUERY)), HashGoals()) }

  function MarkGoals(): Goals { Try(Optional('?'), QueryGoals()) }

  function PathGoals(): Goals { Try(Group(4, Then(Optional('/'), Many(PATH))), MarkGoals()) }

  function PortGoals(): Goals { Try(Group(3, Many(PORT)), PathGoals()) }

  function ColonGoals(): Goals { Try(Optional(':'), PortGoals()) }

  function HostGoals(): Goals { Try(Group(2, Then(One(HOST), Many(HOST))), ColonGoals()) }

  function SchemeRegex(): Regex {
    Either(Then(Literal("http"), Optional('s')), Literal("ftp"))
  }

  function UrlGoals(): Goals { Try(Group(1, SchemeRegex()), Try(Literal("://"), HostGoals())) }

  /** The outcome of matching the whole text against the expression. */
  function UrlMatch(s: string): Option<Captures> {
    Match(UrlGoals(), s, 0, map[])
  }

  /** The six captures, with the three optional delimiters that no group captures. */
  datatype Parts = Parts(
    scheme: string,
    host: string,
    colon: bool,
    port: string,
    path: string,
    mark: bool,
    query: string,
    hash: bool,
    fragment: string)

  function CapturesOf(p: Parts): Captures {
    map[1 := p.scheme, 2 := p.host, 3 := p.port, 4 := p.path, 5 := p.query, 6 := p.fragment]
  }

  /** How many characters of `s` the scheme takes, if the text starts like a URL. */
  function SchemeLength(s: string): (n: nat)
    ensures n > 0 ==> n + 3 <= |s| && s[n..n + 3] == "://"
    ensures n > 0 ==> s[..n] in {"http", "https", "ftp"}
  {
    if "https://" <= s then assert s[..5] == "https" && s[5..8] == "://"; 5
    else if "http://" <= s then assert s[..4] == "http" && s[4..7] == "://"; 4
    else if "ftp://" <= s then assert s[..3] == "ftp" && s[3..6] == "://"; 3
    else 0
  }

  function Skip(c: char, s: string, i: nat): (j: nat)
    requires i <= |s|
    ensures i <= j <= |s|
  {
    if i < |s| && s[i] == c then i + 1 else i
  }

  /** One pass over what follows "://": every piece takes all it can, nothing is given back. */
  function ScanFrom(s: string, scheme: string, h: nat): Option<Parts>
    requires h <= |s|
  {
    var h1 := RunEnd(HOST, s, h);
    var p0 := Skip(':', s, h1);
    var p1 := RunEnd(PORT, s, p0);
    var t1 := RunEnd(PATH, s, Skip('/', s, p1));
    var q0 := Skip('?', s, t1);
    var q1 := RunEnd(QUERY, s, q0);
    var f0 := Skip('#', s, q1);
    var f1 := RunEnd(FRAGMENT, s, f0);
    if h < h1 && f1 == |s| then
      Some(Parts(scheme, s[h..h1], h1 < p0, s[p0..p1], s[p1..t1], t1 < q0, s[q0..q1], q1 < f0, s[f0..]))
    else
      None
  }

  function Scan(s: string): Option<Parts> {
    var n := SchemeLength(s);
    if n == 0 then None else ScanFrom(s, s[..n], n + 3)
  }

  // ---------- the backtracking matcher never needs to backtrack ----------

  ghost predicate NoSpace(s: string, i: nat)
    requires i <= |s|
  {
    forall j :: i <= j < |s| ==> s[j] != ' '
  }

  /** An optional character is taken when it is there and the rest then matches. */
  lemma OptionalStep(c: char, rest: Goals, s: string, i: nat, caps: Captures)
    requires i <= |s|
    requires Match(rest, s, Skip(c, s, i), caps).Some?
    ensures Match(Try(Optional(c), rest), s, i, caps) == Match(rest, s, Skip(c, s, i), caps)
  {
    var one := Try(One(OneOf({c})), rest);
    assert Match(Try(Optional(c), rest), s, i, caps) == OrElse(Match(one, s, i, caps), Match(rest, s, i, caps));
  }

  lemma MatchFragment(s: string, i: nat, caps: Captures)
    requires i <= |s| && NoSpace(s, i)
    ensures Match(FragmentGoals(), s, i, caps) == Some(caps[6 := s[i..]])
  {
    RunEndUnique(FRAGMENT, s, i, |s|);
    assert s[i..|s|] == s[i..];
    assert Match(Close(6, i, Done), s, |s|, caps) == Match(Done, s, |s|, caps[6 := s[i..]]);
    GreedyRun(FRAGMENT, Close(6, i, Done), s, i, caps);
  }

  lemma MatchQuery(s: string, i: nat, caps: Captures)
    requires i <= |s| && NoSpace(s, i)
    ensures var e := RunEnd(QUERY, s, i);
            Match(QueryGoals(), s, i, caps) == Some(caps[5 := s[i..e]][6 := s[Skip('#', s, e)..]])
  {
    var e := RunEnd(QUERY, s, i);
    var caps' := caps[5 := s[i..e]];
    MatchFragment(s, Skip('#', s, e), caps');
    OptionalStep('#', FragmentGoals(), s, e, caps');
    var close := Close(5, i, HashGoals());
    assert Match(close, s, e, caps) == Match(HashGoals(), s, e, caps');
    GreedyRun(QUERY, close, s, i, caps);
  }

  lemma MatchPath(s: string, i: nat, caps: Captures)
    requires i <= |s| && NoSpace(s, i)
    ensures var t := RunEnd(PATH, s, Skip('/', s, i));
            var q := Skip('?', s, t);
            var e := RunEnd(QUERY, s, q);
            Match(PathGoals(), s, i, caps)
            == Some(caps[4 := s[i..t]][5 := s[q..e]][6 := s[Skip('#', s, e)..]])
  {
    var a := Skip('/', s, i);
    var t := RunEnd(PATH, s, a);
    var caps' := caps[4 := s[i..t]];
    MatchQuery(s, Skip('?', s, t), caps');
    OptionalStep('?', QueryGoals(), s, t, caps');
    var close := Close(4, i, MarkGoals());
    assert Match(close, s, t, caps) == Match(MarkGoals(), s, t, caps');
    GreedyRun(PATH, close, s, a, caps);
    var run := Try(Many(PATH), close);
    OptionalStep('/', run, s, i, caps);
    assert Match(PathGoals(), s, i, caps) == Match(Try(Then(Optional('/'), Many(PATH)), close), s, i, caps);
    assert Match(Try(Then(Optional('/'), Many(PATH)), close), s, i, caps)
        == Match(Try(Optional('/'), run), s, i, caps);
  }

  /** From the character after the host on, a text without spaces always matches. */
  lemma MatchColon(s: string, i: nat, caps: Captures)
    requires i <= |s| && NoSpace(s, i)
    ensures var p := Skip(':', s, i);
            var r := RunEnd(PORT, s, p);
            Match(ColonGoals(), s, i, caps) == Match(PathGoals(), s, r, caps[3 := s[p..r]])
    ensures Match(ColonGoals(), s, i, caps).Some?
  {
    var p := Skip(':', s, i);
    var r := RunEnd(PORT, s, p);
    MatchPath(s, r, caps[3 := s[p..r]]);
    var close := Close(3, p, PathGoals());
    assert Match(close, s, r, caps) == Match(PathGoals(), s, r, caps[3 := s[p..r]]);
    GreedyRun(PORT, close, s, p, caps);
    OptionalStep(':', PortGoals(), s, i, caps);
  }

  lemma SpaceStopsTail(s: string, p1: nat)
    requires p1 <= |s|
    ensures var t1 := RunEnd(PATH, s, Skip('/', s, p1));
            var f0 := Skip('#', s, RunEnd(QUERY, s, Skip('?', s, t1)));
            RunEnd(FRAGMENT, s, f0) == |s| <==> NoSpace(s, p1)
  {
  }

  lemma SpaceStopsScan(s: string, scheme: string, h: nat)
    requires h <= |s|
    ensures ScanFrom(s, scheme, h).Some? ==> NoSpace(s, h)
    ensures NoSpace(s, h) && h < |s| && HOST.Has(s[h]) ==> ScanFrom(s, scheme, h).Some?
    ensures ScanFrom(s, scheme, h).Some? ==> h < |s| && HOST.Has(s[h])
  {
    var h1 := RunEnd(HOST, s, h);
    var p1 := RunEnd(PORT, s, Skip(':', s, h1));
    SpaceStopsTail(s, p1);
    assert forall j :: h <= j < p1 ==> s[j] != ' ';
  }

  lemma MatchHostRun(s: string, scheme: string, h: nat)
    requires h < |s| && HOST.Has(s[h]) && NoSpace(s, h)
    ensures var e := RunEnd(HOST, s, h);
            var caps: Captures := map[1 := scheme];
            Match(Try(Many(HOST), Close(2, h, ColonGoals())), s, h + 1, caps)
            == Match(ColonGoals(), s, e, caps[2 := s[h..e]])
  {
    var e := RunEnd(HOST, s, h);
    var caps: Captures := map[1 := scheme];
    var close := Close(2, h, ColonGoals());
    MatchColon(s, e, caps[2 := s[h..e]]);
    assert Match(close, s, e, caps) == Match(ColonGoals(), s, e, caps[2 := s[h..e]]);
    assert RunEnd(HOST, s, h + 1) == e;
    GreedyRun(HOST, close, s, h + 1, caps);
  }

  lemma MatchHostHead(s: string, h: nat, caps: Captures)
    requires h <= |s|
    ensures Match(HostGoals(), s, h, caps)
         == if h < |s| && HOST.Has(s[h])
            then Match(Try(Many(HOST), Close(2, h, ColonGoals())), s, h + 1, caps) else None
  {
    var close := Close(2, h, ColonGoals());
    var one := Try(One(HOST), Try(Many(HOST), close));
    var both := Try(Then(One(HOST), Many(HOST)), close);
    assert Match(HostGoals(), s, h, caps) == Match(both, s, h, caps);
    assert Match(both, s, h, caps) == Match(one, s, h, caps);
  }

  lemma HostGoalsAvoidSpace()
    ensures GoalsAvoid(HostGoals(), ' ')
  {
    assert GoalsAvoid(FragmentGoals(), ' ');
    assert GoalsAvoid(QueryGoals(), ' ');
    assert GoalsAvoid(PathGoals(), ' ');
    assert GoalsAvoid(ColonGoals(), ' ');
  }

  /** What follows "://" is matched exactly as the scanner reads it. */
  lemma MatchHost(s: string, scheme: string, h: nat)
    requires h <= |s|
    ensures Match(HostGoals(), s, h, map[1 := scheme])
         == match ScanFrom(s, scheme, h) case Some(p) => Some(CapturesOf(p)) case None => None
  {
    var caps: Captures := map[1 := scheme];
    SpaceStopsScan(s, scheme, h);
    MatchHostHead(s, h, caps);
    if !NoSpace(s, h) {
      var j :| h <= j < |s| && s[j] == ' ';
      assert s[h..][j - h] == ' ';
      HostGoalsAvoidSpace();
      AvoidedCharacter(HostGoals(), ' ', s, h, caps);
    } else if h < |s| && HOST.Has(s[h]) {
      MatchHostRun(s, scheme, h);
      var e := RunEnd(HOST, s, h);
      var p := Skip(':', s, e);
      var r := RunEnd(PORT, s, p);
      MatchColon(s, e, caps[2 := s[h..e]]);
      MatchPath(s, r, caps[2 := s[h..e]][3 := s[p..r]]);
    }
  }

  /** The scheme alternatives never overlap: at most one of them is followed by "://". */
  lemma MatchScheme(s: string)
    ensures var n := SchemeLength(s);
            UrlMatch(s) == if n == 0 then None else Match(HostGoals(), s, n + 3, map[1 := s[..n]])
  {
    var rest := Try(Literal("://"), HostGoals());
    var close := Close(1, 0, rest);
    var http := Then(Literal("http"), Optional('s'));
    assert UrlMatch(s) == Match(Try(SchemeRegex(), close), s, 0, map[]);
    assert UrlMatch(s) == OrElse(Match(Try(http, close), s, 0, map[]), Match(Try(Literal("ftp"), close), s, 0, map[]));
    AfterScheme(s, 3);
    LiteralMatch("ftp", close, s, 0, map[]);
    var s1 := Try(Optional('s'), close);
    assert Match(Try(http, close), s, 0, map[]) == Match(Try(Literal("http"), s1), s, 0, map[]);
    LiteralMatch("http", s1, s, 0, map[]);
    assert s[0..] == s;
    SchemePrefixes(s);
    if "http" <= s {
      AfterScheme(s, 4);
      var one := Try(One(OneOf({'s'})), close);
      assert Match(s1, s, 4, map[]) == OrElse(Match(one, s, 4, map[]), Match(close, s, 4, map[]));
      if 4 < |s| && s[4] == 's' {
        AfterScheme(s, 5);
        assert Match(one, s, 4, map[]) == Match(close, s, 5, map[]);
      }
    }
  }

  lemma AfterScheme(s: string, n: nat)
    requires n <= |s| || n == 3
    ensures n <= |s| ==>
              Match(Close(1, 0, Try(Literal("://"), HostGoals())), s, n, map[])
              == if "://" <= s[n..] then Match(HostGoals(), s, n + 3, map[1 := s[..n]]) else None
  {
    if n <= |s| {
      LiteralMatch("://", HostGoals(), s, n, map[1 := s[..n]]);
    }
  }

  lemma SchemePrefixes(s: string)
    ensures "ftp" <= s ==> ("ftp://" <= s <==> "://" <= s[3..])
    ensures "http" <= s ==> ("http://" <= s <==> "://" <= s[4..])
    ensures "http" <= s && 4 < |s| && s[4] == 's' ==> ("https://" <= s <==> "://" <= s[5..])
    ensures "https://" <= s ==> "http" <= s && s[4] == 's'
    ensures "http" <= s ==> !("ftp" <= s)
  {
    assert "http" <= s ==> s[0] == 'h';
    assert "ftp" <= s ==> s[0] == 'f';
  }

  /** Main result: backtracking finds exactly what one greedy pass finds, for every text. */
  lemma MatchIsScan(s: string)
    ensures UrlMatch(s) == match Scan(s) case Some(p) => Some(CapturesOf(p)) case None => None
  {
    MatchScheme(s);
    var n := SchemeLength(s);
    if n != 0 {
      MatchHost(s, s[..n], n + 3);
    }
  }

  /** `s` starts with the scheme and "://", goes on with a host character, and has no space. */
  predicate LooksLikeUrl(s: string, scheme: string) {
    && scheme + "://" <= s
    && |scheme| + 3 < |s|
    && s[|scheme| + 3] !in {'/', ' ', ':'}
    && ' ' !in s
  }

  lemma SchemeLengthIs(s: string)
    ensures SchemeLength(s) == if "https" + "://" <= s then 5 else if "http" + "://" <= s then 4
                               else if "ftp" + "://" <= s then 3 else 0
    ensures !("https" + "://" <= s && "http" + "://" <= s)
    ensures "ftp" + "://" <= s ==> !("http" + "://" <= s) && !("https" + "://" <= s)
  {
    assert "https" + "://" == "https://" && "http" + "://" == "http://" && "ftp" + "://" == "ftp://";
    assert "https://" <= s ==> s[0] == 'h' && s[4] == 's';
    assert "http://" <= s ==> s[0] == 'h' && s[4] == ':';
    assert "ftp://" <= s ==> s[0] == 'f';
  }

  lemma NoSpaceWhole(s: string)
    requires SchemeLength(s) > 0
    ensures NoSpace(s, SchemeLength(s) + 3) <==> ' ' !in s
  {
    var n := SchemeLength(s);
    var tail := s[n + 3..];
    assert s == s[..n] + s[n..n + 3] + tail;
    assert ' ' !in s[..n] && ' ' !in s[n..n + 3];
    assert forall j :: n + 3 <= j < |s| ==> s[j] == tail[j - (n + 3)];
    assert forall j :: 0 <= j < |tail| ==> tail[j] == s[j + (n + 3)];
  }

  /** A text matches exactly when its scheme is known, a host follows, and no space occurs. */
  lemma MatchExists(s: string)
    ensures UrlMatch(s).Some?
       <==> LooksLikeUrl(s, "http") || LooksLikeUrl(s, "https") || LooksLikeUrl(s, "ftp")
  {
    MatchIsScan(s);
    SchemeLengthIs(s);
    var n := SchemeLength(s);
    if n != 0 {
      ScanExists(s);
      NoSpaceWhole(s);
    }
  }

  lemma ScanExists(s: string)
    requires SchemeLength(s) > 0
    ensures var h := SchemeLength(s) + 3;
            Scan(s).Some? <==> h < |s| && s[h] !in {'/', ' ', ':'} && NoSpace(s, h)
  {
    SpaceStopsScan(s, s[..SchemeLength(s)], SchemeLength(s) + 3);
  }

  // ---------- rebuilding and printing ----------

  function Bit(present: bool, c: char): string {
    if present then [c] else ""
  }

  /** The text of the parts from the path on. */
  function PrintTail(p: Parts): string {
    p.path + (Bit(p.mark, '?') + (p.query + (Bit(p.hash, '#') + p.fragment)))
  }

  function Print(p: Parts): string {
    p.scheme + ("://" + (p.host + (Bit(p.colon, ':') + (p.port + PrintTail(p)))))
  }

  ghost predicate AllIn(k: Class, t: string) {
    forall j :: 0 <= j < |t| ==> k.Has(t[j])
  }

  /** The shapes of captures that a URL text can have. */
  ghost predicate Canonical(p: Parts) {
    && p.scheme in {"http", "https", "ftp"}
    && p.host != "" && AllIn(HOST, p.host)
    && AllIn(PORT, p.port) && (!p.colon ==> p.port == "")
    && AllIn(PATH, p.path) && AllIn(QUERY, p.query) && AllIn(FRAGMENT, p.fragment)
    && (p.path == "" ==> !p.mark && !p.hash)
    && (p.path != "" ==> p.path[0] == '/')
    && (!p.mark ==> p.query == "")
    && (!p.hash ==> p.fragment == "")
  }

  /** In single characters: what the pieces may consist of, and how they begin. */
  lemma CanonicalExactly(p: Parts)
    ensures Canonical(p)
       <==> && p.scheme in {"http", "https", "ftp"} && p.host != ""
            && (forall c :: c in p.host ==> c !in {'/', ' ', ':'})
            && (forall c :: c in p.port ==> c !in {'/', ' '})
            && (forall c :: c in p.path ==> c !in {' ', '?', '#'})
            && (forall c :: c in p.query ==> c !in {' ', '#'})
            && (forall c :: c in p.fragment ==> c != ' ')
            && (p.colon || p.port == "") && (p.mark || p.query == "") && (p.hash || p.fragment == "")
            && (if p.path == "" then !p.mark && !p.hash else p.path[0] == '/')
  {
    AllInMeans(HOST, p.host);
    AllInMeans(PORT, p.port);
    AllInMeans(PATH, p.path);
    AllInMeans(QUERY, p.query);
    AllInMeans(FRAGMENT, p.fragment);
  }

  lemma AllInMeans(k: Class, t: string)
    ensures AllIn(k, t) <==> forall c :: c in t ==> k.Has(c)
  {
    if AllIn(k, t) {
      forall c | c in t
        ensures k.Has(c)
      {
        var j :| 0 <= j < |t| && t[j] == c;
      }
    }
  }

  lemma Split(s: string, i: nat, j: nat)
    requires i <= j <= |s|
    ensures s[i..] == s[i..j] + s[j..]
  {
  }

  lemma RunIsIn(k: Class, s: string, i: nat, e: nat)
    requires i <= |s| && e == RunEnd(k, s, i)
    ensures AllIn(k, s[i..e])
  {
  }

  lemma PathShape(s: string, p1: nat)
    requires p1 <= |s|
    requires p1 < |s| ==> s[p1] == '/'
    ensures var t1 := RunEnd(PATH, s, Skip('/', s, p1));
            && AllIn(PATH, s[p1..t1])
            && (s[p1..t1] != "" ==> s[p1] == '/')
            && (s[p1..t1] == "" ==> t1 == |s|)
  {
    var t1 := RunEnd(PATH, s, Skip('/', s, p1));
    assert RunEnd(PATH, s, p1) == t1;
    RunIsIn(PATH, s, p1, t1);
  }

  lemma TailShape(s: string, t1: nat)
    requires t1 <= |s|
    ensures var q0 := Skip('?', s, t1);
            var q1 := RunEnd(QUERY, s, q0);
            var f0 := Skip('#', s, q1);
            && AllIn(QUERY, s[q0..q1])
            && (t1 == q0 && (t1 < |s| ==> !PATH.Has(s[t1])) && NoSpace(s, t1) ==> s[q0..q1] == "")
            && (q1 == f0 && NoSpace(s, t1) ==> s[f0..] == "")
  {
    var q0 := Skip('?', s, t1);
    var q1 := RunEnd(QUERY, s, q0);
    RunIsIn(QUERY, s, q0, q1);
    if q1 < |s| {
      assert !QUERY.Has(s[q1]);
    }
  }

  lemma AuthorityShape(s: string, h: nat)
    requires h < |s| && HOST.Has(s[h]) && NoSpace(s, h)
    ensures var h1 := RunEnd(HOST, s, h);
            var p0 := Skip(':', s, h1);
            var p1 := RunEnd(PORT, s, p0);
            && s[h..h1] != "" && AllIn(HOST, s[h..h1]) && AllIn(PORT, s[p0..p1])
            && (h1 == p0 ==> s[p0..p1] == "") && (p1 < |s| ==> s[p1] == '/')
  {
    var h1 := RunEnd(HOST, s, h);
    var p0 := Skip(':', s, h1);
    RunIsIn(HOST, s, h, h1);
    RunIsIn(PORT, s, p0, RunEnd(PORT, s, p0));
  }

  /** What a match captures has a canonical shape. */
  lemma ScanIsCanonical(s: string)
    requires Scan(s).Some?
    ensures Canonical(Scan(s).value)
  {
    var n := SchemeLength(s);
    var h := n + 3;
    SpaceStopsScan(s, s[..n], h);
    AuthorityShape(s, h);
    var p1 := RunEnd(PORT, s, Skip(':', s, RunEnd(HOST, s, h)));
    PathShape(s, p1);
    var t1 := RunEnd(PATH, s, Skip('/', s, p1));
    TailShape(s, t1);
    var f0 := Skip('#', s, RunEnd(QUERY, s, Skip('?', s, t1)));
    NoSpaceTail(s, h, f0);
    var p := Scan(s).value;
    assert p.path == s[p1..t1] && p.fragment == s[f0..];
    assert p.path == "" ==> t1 == f0 == |s|;
  }

  lemma NoSpaceTail(s: string, h: nat, f: nat)
    requires h <= f <= |s| && NoSpace(s, h)
    ensures AllIn(FRAGMENT, s[f..])
  {
  }

  ghost predicate AuthorityScanned(s: string, h: nat, p: Parts, p1: nat)
    requires h <= |s|
  {
    var h1 := RunEnd(HOST, s, h);
    var p0 := Skip(':', s, h1);
    && p1 == RunEnd(PORT, s, p0)
    && h < h1 && s[h..h1] == p.host && (h1 < p0 <==> p.colon) && s[p0..p1] == p.port
  }

  ghost predicate TailScanned(s: string, p1: nat, p: Parts)
    requires p1 <= |s|
  {
    var t1 := RunEnd(PATH, s, Skip('/', s, p1));
    var q0 := Skip('?', s, t1);
    var q1 := RunEnd(QUERY, s, q0);
    var f0 := Skip('#', s, q1);
    && s[p1..t1] == p.path && (t1 < q0 <==> p.mark) && s[q0..q1] == p.query
    && (q1 < f0 <==> p.hash) && s[f0..] == p.fragment && RunEnd(FRAGMENT, s, f0) == |s|
  }

  lemma RebuildTail(s: string, p1: nat, p: Parts)
    requires p1 <= |s| && TailScanned(s, p1, p)
    ensures s[p1..] == PrintTail(p)
  {
    var t1 := RunEnd(PATH, s, Skip('/', s, p1));
    var q0 := Skip('?', s, t1);
    var q1 := RunEnd(QUERY, s, q0);
    Split(s, p1, t1);
    SplitSkip('?', s, t1);
    Split(s, q0, q1);
    SplitSkip('#', s, q1);
  }

  lemma SplitSkip(c: char, s: string, i: nat)
    requires i <= |s|
    ensures var j := Skip(c, s, i); s[i..] == Bit(i < j, c) + s[j..]
  {
  }

  lemma RebuildAuthority(s: string, h: nat, p: Parts, p1: nat)
    requires h <= |s| && AuthorityScanned(s, h, p, p1)
    ensures p1 <= |s| && s[h..] == p.host + (Bit(p.colon, ':') + (p.port + s[p1..]))
  {
    var h1 := RunEnd(HOST, s, h);
    var p0 := Skip(':', s, h1);
    Split(s, h, h1);
    SplitSkip(':', s, h1);
    Split(s, p0, p1);
  }

  lemma ScanDissected(s: string, p: Parts) returns (p1: nat)
    requires Scan(s) == Some(p)
    ensures AuthorityScanned(s, SchemeLength(s) + 3, p, p1) && p1 <= |s| && TailScanned(s, p1, p)
  {
    p1 := RunEnd(PORT, s, Skip(':', s, RunEnd(HOST, s, SchemeLength(s) + 3)));
  }

  /** What a match captures puts the text together again. */
  lemma ScanRebuilds(s: string)
    requires Scan(s).Some?
    ensures Print(Scan(s).value) == s
  {
    var n := SchemeLength(s);
    var h := n + 3;
    var p := Scan(s).value;
    var p1 := ScanDissected(s, p);
    RebuildAuthority(s, h, p, p1);
    RebuildTail(s, p1, p);
    RebuildScheme(s, p.scheme, s[h..]);
  }

  lemma RebuildScheme(s: string, scheme: string, rest: string)
    requires |scheme| + 3 <= |s| && scheme == s[..|scheme|] && s[|scheme|..|scheme| + 3] == "://"
    requires rest == s[|scheme| + 3..]
    ensures s == scheme + ("://" + rest)
  {
  }

  /** A run over a printed piece ends with the piece when what follows cannot continue it. */
  lemma RunOver(k: Class, s: string, i: nat, piece: string, rest: string)
    requires i <= |s| && s[i..] == piece + rest
    requires AllIn(k, piece)
    requires rest != "" ==> !k.Has(rest[0])
    ensures var e := i + |piece|;
            e <= |s| && RunEnd(k, s, i) == e && s[i..e] == piece && s[e..] == rest
  {
    var e := i + |piece|;
    assert forall j :: i <= j < |s| ==> s[j] == s[i..][j - i];
    assert s[i..e] == s[i..][..|piece|] && s[e..] == s[i..][|piece|..];
    RunEndUnique(k, s, i, e);
  }

  lemma SkipOver(c: char, s: string, i: nat, present: bool, rest: string)
    requires i <= |s| && s[i..] == Bit(present, c) + rest
    requires !present && rest != "" ==> rest[0] != c
    ensures var e := i + |Bit(present, c)|;
            e <= |s| && Skip(c, s, i) == e && s[e..] == rest
  {
    assert i < |s| ==> s[i] == s[i..][0];
    assert present ==> s[i + 1..] == s[i..][1..];
  }

  /** A printed optional delimiter and the piece after it are scanned as printed. */
  lemma DelimitedRun(c: char, k: Class, s: string, i: nat, present: bool, piece: string, rest: string)
    requires i <= |s| && s[i..] == Bit(present, c) + (piece + rest)
    requires AllIn(k, piece)
    requires rest != "" ==> !k.Has(rest[0])
    requires !present ==> piece == "" && (rest != "" ==> rest[0] != c)
    ensures var a := Skip(c, s, i);
            var e := RunEnd(k, s, a);
            (i < a <==> present) && s[a..e] == piece && s[e..] == rest
  {
    assert !present ==> piece + rest == rest;
    SkipOver(c, s, i, present, piece + rest);
    RunOver(k, s, Skip(c, s, i), piece, rest);
  }

  lemma ScanPath(s: string, p1: nat, path: string, rest: string)
    requires p1 <= |s| && s[p1..] == path + rest
    requires AllIn(PATH, path)
    requires if path == "" then rest == "" else path[0] == '/'
    requires rest != "" ==> !PATH.Has(rest[0])
    ensures var t1 := p1 + |path|;
            t1 <= |s| && RunEnd(PATH, s, Skip('/', s, p1)) == t1 && s[p1..t1] == path && s[t1..] == rest
  {
    RunOver(PATH, s, p1, path, rest);
    if path != "" {
      assert s[p1] == s[p1..][0];
      RunEndUnique(PATH, s, p1 + 1, p1 + |path|);
    }
  }

  lemma ScanQuery(s: string, t1: nat, mark: bool, query: string, hash: bool, fragment: string)
    requires t1 <= |s| && s[t1..] == Bit(mark, '?') + (query + (Bit(hash, '#') + fragment))
    requires AllIn(QUERY, query) && AllIn(FRAGMENT, fragment)
    requires (!mark ==> query == "") && (!hash ==> fragment == "")
    ensures var q0 := Skip('?', s, t1);
            var q1 := RunEnd(QUERY, s, q0);
            var f0 := Skip('#', s, q1);
            && (t1 < q0 <==> mark) && s[q0..q1] == query
            && (q1 < f0 <==> hash) && s[f0..] == fragment && RunEnd(FRAGMENT, s, f0) == |s|
  {
    var rest := Bit(hash, '#') + fragment;
    assert rest != "" ==> rest[0] == '#';
    DelimitedRun('?', QUERY, s, t1, mark, query, rest);
    ScanFragment(s, RunEnd(QUERY, s, Skip('?', s, t1)), hash, fragment);
  }

  lemma ScanFragment(s: string, q1: nat, hash: bool, fragment: string)
    requires q1 <= |s| && s[q1..] == Bit(hash, '#') + fragment
    requires AllIn(FRAGMENT, fragment) && (!hash ==> fragment == "")
    ensures var f0 := Skip('#', s, q1);
            (q1 < f0 <==> hash) && s[f0..] == fragment && RunEnd(FRAGMENT, s, f0) == |s|
  {
    SkipOver('#', s, q1, hash, fragment);
    var f0 := Skip('#', s, q1);
    assert s[f0..] == s[f0..|s|];
    assert AllIn(FRAGMENT, s[f0..|s|]);
    forall j | f0 <= j < |s| ensures FRAGMENT.Has(s[j]) {
      assert s[j] == s[f0..|s|][j - f0];
    }
    RunEndUnique(FRAGMENT, s, f0, |s|);
  }

  lemma SchemeOfText(scheme: string, rest: string)
    requires scheme in {"http", "https", "ftp"}
    ensures var s := (scheme + "://") + rest;
            SchemeLength(s) == |scheme| && s[..|scheme|] == scheme && s[|scheme| + 3..] == rest
  {
    var s := (scheme + "://") + rest;
    assert scheme + "://" <= s;
    SchemeLengthIs(s);
  }

  lemma PrintedScheme(p: Parts)
    requires p.scheme in {"http", "https", "ftp"}
    ensures var s := Print(p);
            var n := |p.scheme|;
            && SchemeLength(s) == n && s[..n] == p.scheme
            && s[n + 3..] == p.host + (Bit(p.colon, ':') + (p.port + PrintTail(p)))
  {
    var rest := p.host + (Bit(p.colon, ':') + (p.port + PrintTail(p)));
    SchemeOfText(p.scheme, rest);
    Regroup(p.scheme, "://", rest);
  }

  lemma Regroup(a: string, b: string, c: string)
    ensures a + (b + c) == (a + b) + c
  {
  }

  lemma ScanAuthority(s: string, h: nat, host: string, colon: bool, port: string, tail: string)
    requires h <= |s| && s[h..] == host + (Bit(colon, ':') + (port + tail))
    requires host != "" && AllIn(HOST, host) && AllIn(PORT, port)
    requires !colon ==> port == ""
    requires tail != "" ==> tail[0] == '/'
    ensures var h1 := RunEnd(HOST, s, h);
            var p0 := Skip(':', s, h1);
            var p1 := RunEnd(PORT, s, p0);
            && h < h1 && s[h..h1] == host && (h1 < p0 <==> colon)
            && s[p0..p1] == port && s[p1..] == tail
  {
    var rest := Bit(colon, ':') + (port + tail);
    assert rest != "" ==> !HOST.Has(rest[0]) by {
      assert colon ==> rest[0] == ':';
      assert !colon ==> rest == tail;
    }
    RunOver(HOST, s, h, host, rest);
    DelimitedRun(':', PORT, s, RunEnd(HOST, s, h), colon, port, tail);
  }

  /** What a canonical path can be followed by. */
  lemma TailStart(p: Parts)
    requires Canonical(p)
    ensures var rest := Bit(p.mark, '?') + (p.query + (Bit(p.hash, '#') + p.fragment));
            && PrintTail(p) == p.path + rest
            && (if p.path == "" then rest == "" else p.path[0] == '/')
            && (rest != "" ==> !PATH.Has(rest[0]))
            && (PrintTail(p) != "" ==> PrintTail(p)[0] == '/')
  {
  }

  lemma AuthorityOfPrinted(s: string, h: nat, p: Parts) returns (p1: nat)
    requires Canonical(p) && h <= |s|
    requires s[h..] == p.host + (Bit(p.colon, ':') + (p.port + PrintTail(p)))
    ensures p1 <= |s| && AuthorityScanned(s, h, p, p1) && s[p1..] == PrintTail(p)
  {
    TailStart(p);
    ScanAuthority(s, h, p.host, p.colon, p.port, PrintTail(p));
    p1 := RunEnd(PORT, s, Skip(':', s, RunEnd(HOST, s, h)));
  }

  lemma PathOfPrinted(s: string, p1: nat, p: Parts) returns (t1: nat)
    requires Canonical(p) && p1 <= |s| && s[p1..] == PrintTail(p)
    ensures p1 <= t1 <= |s| && RunEnd(PATH, s, Skip('/', s, p1)) == t1 && s[p1..t1] == p.path
    ensures s[t1..] == Bit(p.mark, '?') + (p.query + (Bit(p.hash, '#') + p.fragment))
  {
    t1 := p1 + |p.path|;
    TailStart(p);
    ScanPath(s, p1, p.path, Bit(p.mark, '?') + (p.query + (Bit(p.hash, '#') + p.fragment)));
  }

  lemma TailOfPrinted(s: string, p1: nat, p: Parts)
    requires Canonical(p) && p1 <= |s| && s[p1..] == PrintTail(p)
    ensures TailScanned(s, p1, p)
  {
    var t1 := PathOfPrinted(s, p1, p);
    TailFrom(s, p1, t1, p, p.mark, p.query, p.hash, p.fragment);
  }

  lemma TailFrom(s: string, p1: nat, t1: nat, p: Parts, mark: bool, query: string, hash: bool, fragment: string)
    requires p1 <= t1 <= |s| && RunEnd(PATH, s, Skip('/', s, p1)) == t1 && s[p1..t1] == p.path
    requires s[t1..] == Bit(mark, '?') + (query + (Bit(hash, '#') + fragment))
    requires AllIn(QUERY, query) && AllIn(FRAGMENT, fragment) && (!mark ==> query == "") && (!hash ==> fragment == "")
    ensures p.mark == mark && p.query == query && p.hash == hash && p.fragment == fragment ==> TailScanned(s, p1, p)
  {
    ScanQuery(s, t1, mark, query, hash, fragment);
  }

  lemma ScanAssembled(s: string, p: Parts, p1: nat)
    requires p.scheme != "" && SchemeLength(s) == |p.scheme| && s[..|p.scheme|] == p.scheme
    requires p1 <= |s| && AuthorityScanned(s, |p.scheme| + 3, p, p1) && TailScanned(s, p1, p)
    ensures Scan(s) == Some(p)
  {
  }

  /** Main result: scanning a printed canonical shape gives the shape back. */
  lemma PrintThenScan(p: Parts)
    requires Canonical(p)
    ensures Scan(Print(p)) == Some(p)
  {
    PrintedScheme(p);
    var p1 := AuthorityOfPrinted(Print(p), |p.scheme| + 3, p);
    TailOfPrinted(Print(p), p1, p);
    ScanAssembled(Print(p), p, p1);
  }
}
