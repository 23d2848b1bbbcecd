/** A regular expression with capturing groups and a backtracking matcher.
  *
  * The matcher explores alternatives in the priority order of a Perl-style
  * engine: the left branch before the right one, one more repetition before
  * none, a present optional piece before an absent one.  A match counts only
  * when it consumes the whole text. */
module Regex {
  import opened Wrappers

  /** A character class: the listed characters, or all the others. */
  datatype Class = OneOf(chars: set<char>) | NoneOf(chars: set<char>) {
    predicate Has(c: char) {
      match this
      case OneOf(cs) => c in cs
      case NoneOf(cs) => c !in cs
    }
  }

  datatype Regex =
    | Empty
    | One(cls: Class)
    | Many(cls: Class)
    | Maybe(body: Regex)
    | Either(left: Regex, right: Regex)
    | Then(first: Regex, second: Regex)
    | Group(index: nat, body: Regex)

  /** What is still to be matched, first goal first. */
  datatype Goals =
    | Done
    | Try(regex: Regex, rest: Goals)
    | Close(index: nat, start: nat, rest: Goals)

  type Captures = map<nat, string>

  function Literal(text: string): Regex {
    if text == "" then Empty else Then(One(OneOf({text[0]})), Literal(text[1..]))
  }

  function Weight(r: Regex): (w: nat)
    ensures w > 0
  {
    match r
    case Empty => 1
    case One(_) => 1
    case Many(_) => 1
    case Maybe(b) => 1 + Weight(b)
    case Either(a, b) => 1 + Weight(a) + Weight(b)
    case Then(a, b) => 1 + Weight(a) + Weight(b)
    case Group(_, b) => 2 + Weight(b)
  }

  function GoalsWeight(g: Goals): nat {
    match g
    case Done => 0
    case Try(r, rest) => Weight(r) + GoalsWeight(rest)
    case Close(_, _, rest) => 1 + GoalsWeight(rest)
  }

  function Slice(s: string, lo: nat, hi: nat): string
    requires hi <= |s|
  {
    if lo <= hi then s[lo..hi] else ""
  }

  function OrElse(a: Option<Captures>, b: Option<Captures>): Option<Captures> {
    if a.Some? then a else b
  }

  /** The captures of the highest-priority way to match `g` against all of `s[i..]`. */
  function Match(g: Goals, s: string, i: nat, caps: Captures): Option<Captures>
    requires i <= |s|
    decreases |s| - i, GoalsWeight(g)
  {
    match g
    case Done => if i == |s| then Some(caps) else None
    case Close(n, start, rest) => Match(rest, s, i, caps[n := Slice(s, start, i)])
    case Try(r, rest) =>
      match r
      case Empty => Match(rest, s, i, caps)
      case One(k) => if i < |s| && k.Has(s[i]) then Match(rest, s, i + 1, caps) else None
      case Many(k) =>
        if i < |s| && k.Has(s[i]) then
          OrElse(Match(g, s, i + 1, caps), Match(rest, s, i, caps))
        else
          Match(rest, s, i, caps)
      case Maybe(b) => OrElse(Match(Try(b, rest), s, i, caps), Match(rest, s, i, caps))
      case Either(a, b) => OrElse(Match(Try(a, rest), s, i, caps), Match(Try(b, rest), s, i, caps))
      case Then(a, b) =>
        assert GoalsWeight(Try(b, rest)) == Weight(b) + GoalsWeight(rest);
        Match(Try(a, Try(b, rest)), s, i, caps)
      case Group(n, b) =>
        assert GoalsWeight(Close(n, i, rest)) == 1 + GoalsWeight(rest);
        Match(Try(b, Close(n, i, rest)), s, i, caps)
  }

  /** Where the longest run of characters of `k` that starts at `i` ends. */
  function RunEnd(k: Class, s: string, i: nat): (e: nat)
    requires i <= |s|
    ensures i <= e <= |s|
    ensures forall j :: i <= j < e ==> k.Has(s[j])
    ensures e < |s| ==> !k.Has(s[e])
    decreases |s| - i
  {
    if i < |s| && k.Has(s[i]) then RunEnd(k, s, i + 1) else i
  }

  /** A run has only one possible end. */
  lemma {:induction false} RunEndUnique(k: Class, s: string, i: nat, e: nat)
    requires i <= e <= |s|
    requires forall j :: i <= j < e ==> k.Has(s[j])
    requires e < |s| ==> !k.Has(s[e])
    ensures RunEnd(k, s, i) == e
    decreases e - i
  {
    if i < e {
      RunEndUnique(k, s, i + 1, e);
    }
  }

  /** A repetition takes the whole run whenever the rest then matches: it never gives back. */
  lemma {:induction false} GreedyRun(k: Class, rest: Goals, s: string, i: nat, caps: Captures)
    requires i <= |s|
    requires Match(rest, s, RunEnd(k, s, i), caps).Some?
    ensures Match(Try(Many(k), rest), s, i, caps) == Match(rest, s, RunEnd(k, s, i), caps)
    decreases |s| - i
  {
    if i < |s| && k.Has(s[i]) {
      GreedyRun(k, rest, s, i + 1, caps);
    }
  }

  /** A literal matches exactly the texts that start with it. */
  lemma {:induction false} LiteralMatch(text: string, rest: Goals, s: string, i: nat, caps: Captures)
    requires i <= |s|
    ensures Match(Try(Literal(text), rest), s, i, caps)
         == if text <= s[i..] then Match(rest, s, i + |text|, caps) else None
    decreases |text|
  {
    if text != "" {
      var r := Literal(text);
      assert Match(Try(r, rest), s, i, caps) == Match(Try(r.first, Try(r.second, rest)), s, i, caps);
      assert text <= s[i..] ==> i < |s| && s[i] == text[0] by {
        if text <= s[i..] {
          assert s[i..][0] == text[0];
        }
      }
      if i < |s| && s[i] == text[0] {
        LiteralMatch(text[1..], rest, s, i + 1, caps);
        assert s[i..][1..] == s[i + 1..];
        assert text <= s[i..] <==> text[1..] <= s[i + 1..] by {
          assert text == [text[0]] + text[1..];
          assert s[i..] == [s[i]] + s[i + 1..];
        }
      }
    }
  }

  /** No class of the expression has the character `c`. */
  predicate Avoids(r: Regex, c: char) {
    match r
    case Empty => true
    case One(k) => !k.Has(c)
    case Many(k) => !k.Has(c)
    case Maybe(b) => Avoids(b, c)
    case Either(a, b) => Avoids(a, c) && Avoids(b, c)
    case Then(a, b) => Avoids(a, c) && Avoids(b, c)
    case Group(_, b) => Avoids(b, c)
  }

  predicate GoalsAvoid(g: Goals, c: char) {
    match g
    case Done => true
    case Try(r, rest) => Avoids(r, c) && GoalsAvoid(rest, c)
    case Close(_, _, rest) => GoalsAvoid(rest, c)
  }

  /** A text with a character that no class has cannot be matched. */
  lemma {:induction false} AvoidedCharacter(g: Goals, c: char, s: string, i: nat, caps: Captures)
    requires i <= |s|
    requires GoalsAvoid(g, c)
    requires c in s[i..]
    ensures Match(g, s, i, caps).None?
    decreases |s| - i, GoalsWeight(g)
  {
    if i < |s| && s[i] != c {
      assert s[i..] == [s[i]] + s[i + 1..];
    }
    match g
    case Done =>
    case Close(n, start, rest) => AvoidedCharacter(rest, c, s, i, caps[n := Slice(s, start, i)]);
    case Try(r, rest) =>
      match r
      case Empty => AvoidedCharacter(rest, c, s, i, caps);
      case One(k) => if k.Has(s[i]) { AvoidedCharacter(rest, c, s, i + 1, caps); }
      case Many(k) =>
        if k.Has(s[i]) { AvoidedCharacter(g, c, s, i + 1, caps); }
        AvoidedCharacter(rest, c, s, i, caps);
      case Maybe(b) =>
        AvoidedCharacter(Try(b, rest), c, s, i, caps);
        AvoidedCharacter(rest, c, s, i, caps);
      case Either(a, b) =>
        AvoidedCharacter(Try(a, rest), c, s, i, caps);
        AvoidedCharacter(Try(b, rest), c, s, i, caps);
      case Then(a, b) =>
        assert GoalsWeight(Try(b, rest)) == Weight(b) + GoalsWeight(rest);
        AvoidedCharacter(Try(a, Try(b, rest)), c, s, i, caps);
      case Group(n, b) =>
        assert GoalsWeight(Close(n, i, rest)) == 1 + GoalsWeight(rest);
        AvoidedCharacter(Try(b, Close(n, i, rest)), c, s, i, caps);
  }
}
