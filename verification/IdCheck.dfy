/** What comparing ids would achieve.
  *
  * A request carries the next id of a counter that all sessions of the process share, and its
  * response is taken without a look at the id in it.  Were the two compared, values would match
  * their calls under every peer of Connection and every use of the session, until the counter wraps
  * around. */
module IdCheck {
  import opened Wrappers
  import opened Messages
  import opened EventLoop
  import opened Connection
  import opened RpcId

  /** `t(k)` ids have been given before the one of the session's call number k. */
  type Tickets = nat -> nat

  ghost predicate Increasing(t: Tickets) {
    forall i, j :: i < j ==> t(i) < t(j)
  }

  /** A value whose response carries the id of the call that returned it. */
  predicate SameId(t: Tickets, entry: (nat, Item)) {
    entry.1.Response? && IdOf(t(entry.0)) == IdOf(t(entry.1.call))
  }

  predicate Known(c: Wire, x: Item) {
    x.Response? ==> x.call < c.next
  }

  /** Only calls that have been made are answered, and only responses are returned. */
  ghost predicate Numbered(c: Wire) {
    && (forall k :: k in c.asked ==> k < c.next)
    && (forall x :: x in c.unread ==> Known(c, x))
    && (c.got.Some? ==> Known(c, c.got.value))
    && (forall e :: e in c.log ==> e.0 < c.next && e.1.Response? && Known(c, e.1))
  }

  lemma NumberedStep(timeout: nat, w: World, a: Action)
    requires Numbered(w.wire) && WEnabled(w, a)
    ensures Numbered(WApply(timeout, w, a).wire)
  {
    var c, d := w.wire, WireApply(w, a);
    UnreadStep(w, a);
    assert forall k :: k in d.asked ==> k in c.asked || k < d.next;
    assert forall e :: e in d.log ==> e in c.log || (a.Deliver? && e == (c.next - 1, c.got.value));
  }

  lemma UnreadStep(w: World, a: Action)
    requires Numbered(w.wire) && WEnabled(w, a)
    ensures w.wire.next <= WireApply(w, a).next
    ensures forall x :: x in WireApply(w, a).unread ==> Known(w.wire, x)
    ensures WireApply(w, a).got.Some? ==> Known(w.wire, WireApply(w, a).got.value)
  {
    var c, d := w.wire, WireApply(w, a);
    if a.Peer? && a.act.Answer? {
      var x := Response(c.asked[a.act.which], a.act.reply);
      assert c.asked[a.act.which] in c.asked && Known(c, x);
      assert forall y :: y in d.unread ==> y in c.unread || y == x;
    } else if Oversizes(a) {
      PiecesAreGarbage(a.act.leftover + 1);
      assert forall y :: y in d.unread ==> y in c.unread || y in Pieces(a.act.leftover + 1);
    } else if a == Peer(Junk) {
      assert forall y :: y in d.unread ==> y in c.unread || y == Garbage;
    } else {
      assert forall y :: y in d.unread ==> y in c.unread;
    }
  }

  lemma {:induction false} NumberedRun(timeout: nat, w: World, run: seq<Action>)
    requires Numbered(w.wire) && WValid(timeout, w, run)
    ensures Numbered(WExec(timeout, w, run).wire)
    decreases |run|
  {
    if run != [] {
      NumberedStep(timeout, w, run[0]);
      NumberedRun(timeout, WApply(timeout, w, run[0]), run[1..]);
    }
  }

  /** Main result: in any run at all, whatever the peer of this model sends, in whatever order it answers,
    * and however the session is used, a value has the id of its call exactly if it answers that call,
    * provided that fewer than 2^64 ids are given between the first call of the session and its last. */
  lemma ComparingIdsWouldDo(timeout: nat, start: int, run: seq<Action>, t: Tickets)
    requires WValid(timeout, Init(start), run) && Increasing(t)
    requires var n := WExec(timeout, Init(start), run).wire.next; n > 0 ==> t(n - 1) < t(0) + MODULUS
    ensures forall e :: e in WExec(timeout, Init(start), run).wire.log ==>
              (SameId(t, e) <==> e.1.Response? && e.1.call == e.0)
  {
    var c := WExec(timeout, Init(start), run).wire;
    NumberedRun(timeout, Init(start), run);
    forall e | e in c.log
      ensures SameId(t, e) <==> e.1.Response? && e.1.call == e.0
    {
      var i, j := e.0, e.1.call;
      Near(t, c.next, i);
      Near(t, c.next, j);
      if i < j {
        IdsRepeatExactly(t(i), t(j));
      } else if j < i {
        IdsRepeatExactly(t(j), t(i));
      }
    }
  }

  lemma Near(t: Tickets, n: nat, i: nat)
    requires Increasing(t) && i < n && t(n - 1) < t(0) + MODULUS
    ensures t(0) <= t(i) < t(0) + MODULUS
  {
    assert i == 0 || t(0) < t(i);
    assert i == n - 1 || t(i) < t(n - 1);
  }

  /** With a peer that sends only answers, and a session used for whole requests, comparing ids would
    * reject nothing, even after a wrap-around. */
  lemma ComparingIdsRejectsNothing(timeout: nat, start: int, run: seq<Action>, t: Tickets)
    requires WValid(timeout, Init(start), run) && WellFormed(run) && Requests(timeout, Init(start), run)
    ensures forall e :: e in WExec(timeout, Init(start), run).wire.log ==> SameId(t, e)
  {
    EveryValueAnswersItsCall(timeout, start, run);
  }

  /** A value with the wrong response would pass exactly if a multiple of 2^64 ids had been given from
    * the one call to the other; so would the one of Confusion.JunkConfuses. */
  lemma MissedExactly(t: Tickets, e: (nat, Item))
    requires Increasing(t) && e.1.Response?
    ensures var i, j := e.0, e.1.call;
            SameId(t, e) <==> (if i <= j then t(j) - t(i) else t(i) - t(j)) % MODULUS == 0
  {
    var i, j := e.0, e.1.call;
    if i <= j {
      assert i == j || t(i) < t(j);
      IdsRepeatExactly(t(i), t(j));
    } else {
      assert t(j) < t(i);
      IdsRepeatExactly(t(j), t(i));
    }
  }
}
