/** Consequences of the invariant: log matching, leader completeness, agreement on what is committed. */
module LeaderCompleteness {
  import opened RaftLog
  import opened Quorum
  import opened Consensus

  lemma AgreeTrans(a: Log, b: Log, c: Log, k: nat)
    requires Agree(a, b, k) && Agree(b, c, k)
    ensures Agree(a, c, k)
  {
    forall i | 0 <= i < k ensures a[i] == c[i] {
      assert a[i] == b[i];
    }
  }

  /** Log matching: equal index and term of an entry means equal logs up to it. */
  lemma LogMatching(g: State, a: Log, b: Log, i: nat)
    requires Backed(g, a) && Backed(g, b)
    requires i < |a| && i < |b| && a[i].term == b[i].term
    ensures Agree(a, b, i + 1)
  {
    if 0 < i {
      assert BackedAt(g, a, i) && BackedAt(g, b, i);
      AgreeTrans(a, g.elected[a[i].term].log, b, i + 1);
    }
  }

  /** Leaders' logs carry no term above their own. */
  lemma LeaderTerms(t: Term, e: Election)
    requires LeaderLogOk(t, e)
    ensures TermsAtMost(e.log, t)
  {
    forall i | 0 <= i < |e.log| ensures e.log[i].term <= t {
      if i < |e.initial| {
        assert e.log[i] == e.initial[i];
      }
    }
  }

  /** Terms never decrease along a log. */
  lemma TermsSorted(g: State, l: Log, i: nat, j: nat)
    requires forall t :: ElectedOk(g, t)
    requires Backed(g, l) && i <= j < |l|
    ensures l[i].term <= l[j].term
  {
    if 0 < j {
      assert BackedAt(g, l, j);
      var t := l[j].term;
      assert ElectedOk(g, t);
      LeaderTerms(t, g.elected[t]);
      assert l[i] == g.elected[t].log[i];
    }
  }

  /** A log that ends in an entry of a term extends the log that term's leader was elected with. */
  lemma ExtendsInitial(g: State, l: Log)
    requires forall t :: ElectedOk(g, t)
    requires Backed(g, l) && |l| > 1
    ensures LastTerm(l) in g.elected
    ensures Prefix(l, g.elected[LastTerm(l)].log)
    ensures Prefix(g.elected[LastTerm(l)].initial, l)
  {
    assert BackedAt(g, l, |l| - 1);
    var u := LastTerm(l);
    assert ElectedOk(g, u);
    var e := g.elected[u];
    assert e.log[|l| - 1].term == u;
    forall i | 0 <= i < |e.initial| ensures e.initial[i] == l[i] {
      assert e.initial[i] == e.log[i] == l[i];
    }
  }

  /** Whoever wins an election stood with everything chosen in earlier terms. */
  lemma {:induction false} WinnerHasChosen(g: State, t: Term, k: nat, u: Term, c: Server, q: set<Server>)
    requires History(g) && Chosen(g, t, k) && t < u
    requires At(u, c) in g.stood && Majority(|g.terms|, q) && VotedFor(g, u, c, q)
    requires u in g.elected ==> q <= g.elected[u].electors
    ensures Agree(g.elected[t].log, g.stood[At(u, c)], k)
    decreases u, 0
  {
    var s := Overlap(|g.terms|, Ackers(g, t, k), q);
    assert BallotOk(g, At(u, s)) && BallotKeeps(g, At(u, s), t);
    var v, l := g.ballots[At(u, s)].log, g.stood[At(u, c)];
    assert KeptAt(g, t, k, v, u - 1);
    if !Agree(g.elected[t].log, v, k) {
      var w: nat :| w <= u - 1 && DroppedBy(g, t, k, w);
      LeaderHasChosen(g, t, k, w);
    } else {
      assert StoodOk(g, At(u, c));
      var w := NewerThanChosen(g, t, k, l, v);
      if w > t {
        LeaderHasChosen(g, t, k, w);
        AgreeTrans(g.elected[t].log, g.elected[w].initial, l, k);
      }
    }
  }

  lemma {:induction false} LeaderHasChosen(g: State, t: Term, k: nat, u: Term)
    requires History(g) && Chosen(g, t, k) && t < u && u in g.elected
    ensures Agree(g.elected[t].log, g.elected[u].initial, k)
    decreases u, 1
  {
    assert ElectedOk(g, u);
    WinnerHasChosen(g, t, k, u, g.elected[u].leader, g.elected[u].electors);
  }

  /**
   A log l at least as up to date as one holding a prefix chosen in term t holds it too, or extends
   the log with which the leader of a later term, that of l's last entry, was elected.
   */
  lemma NewerThanChosen(g: State, t: Term, k: nat, l: Log, v: Log) returns (w: Term)
    requires forall x :: ElectedOk(g, x)
    requires Chosen(g, t, k)
    requires Backed(g, l) && Backed(g, v) && Agree(g.elected[t].log, v, k) && UpToDate(l, v)
    ensures w == LastTerm(l) >= t && w in g.elected
    ensures w == t ==> Agree(g.elected[t].log, l, k)
    ensures w > t ==> Prefix(g.elected[w].initial, l)
  {
    assert ElectedOk(g, t);
    assert v[k - 1] == g.elected[t].log[k - 1];
    TermsSorted(g, v, k - 1, |v| - 1);
    w := LastTerm(l);
    ExtendsInitial(g, l);
  }

  lemma ChosenInLeader(g: State, t: Term, k: nat, u: Term)
    requires History(g) && Chosen(g, t, k) && t <= u && u in g.elected
    ensures Agree(g.elected[t].log, g.elected[u].log, k)
  {
    if t < u {
      LeaderHasChosen(g, t, k, u);
      assert ElectedOk(g, u);
      AgreeTrans(g.elected[t].log, g.elected[u].initial, g.elected[u].log, k);
    }
  }

  /** Leader completeness: a leader's log contains all that leaders up to its term committed. */
  lemma CommittedInLeader(g: State, t: Term, l: Log, k: nat, u: Term)
    requires History(g) && Committed(g, t, l, k) && t <= u && u in g.elected
    ensures Agree(l, g.elected[u].log, k)
  {
    if k > 1 {
      var w: nat, m: nat :| w <= t && Chosen(g, w, m) && k <= m && Agree(l, g.elected[w].log, k);
      ChosenInLeader(g, w, m, u);
      AgreeTrans(l, g.elected[w].log, g.elected[u].log, k);
    } else {
      assert ElectedOk(g, u);
    }
  }

  /** Two committed prefixes agree on their common length. */
  lemma CommittedAgree(g: State, t: Term, a: Log, j: nat, u: Term, b: Log, k: nat)
    requires History(g) && Committed(g, t, a, j) && Committed(g, u, b, k)
    ensures forall i :: 0 <= i < j && i < k ==> a[i] == b[i]
  {
    if j > 1 && k > 1 {
      var v: nat, m: nat :| v <= t && Chosen(g, v, m) && j <= m && Agree(a, g.elected[v].log, j);
      var w: nat, n: nat :| w <= u && Chosen(g, w, n) && k <= n && Agree(b, g.elected[w].log, k);
      assert Committed(g, v, a, j) && Committed(g, w, b, k);
      var x := if v <= w then w else v;
      CommittedInLeader(g, v, a, j, x);
      CommittedInLeader(g, w, b, k, x);
    }
  }
}
