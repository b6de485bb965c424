/**
 Every step of the agreement core keeps its invariant.

 History only grows, so most facts survive a step unchanged; what needs an argument is the server that
 moved. A new ballot keeps what its voter acknowledged, by the up-to-date test. An election wins with a
 log that has everything chosen. Accepting a leader's log, or installing a committed prefix, displaces
 entries only if no leader that could still commit them counts on them: each was acknowledged in an
 earlier term, and some leader since then was elected without it.
 */
module ConsensusSteps {
  import opened RaftLog
  import opened Quorum
  import opened Consensus
  import opened LeaderCompleteness

  // ---------------------------------------------------------------- what steps leave in place

  ghost predicate TermGrows(g: State, g': State, t: Term) {
    t in g.elected ==>
      && t in g'.elected
      && g'.elected[t].leader == g.elected[t].leader
      && g'.elected[t].electors == g.elected[t].electors
      && g'.elected[t].initial == g.elected[t].initial
      && Prefix(g.elected[t].log, g'.elected[t].log)
  }

  ghost predicate SlotGrows(g: State, g': State, k: Slot) {
    && (k in g.stood ==> k in g'.stood && g'.stood[k] == g.stood[k])
    && (k in g.ballots ==> k in g'.ballots && g'.ballots[k] == g.ballots[k])
    && (k in g.acked ==> k in g'.acked && g'.acked[k] >= g.acked[k])
  }

  /** History only grows: nothing recorded is taken back. */
  ghost predicate Grows(g: State, g': State) {
    && |g'.terms| == |g.terms|
    && (forall s :: 0 <= s < |g.terms| ==> g.terms[s] <= g'.terms[s])
    && (forall t :: TermGrows(g, g', t))
    && (forall k :: SlotGrows(g, g', k))
  }

  lemma BackedGrows(g: State, g': State, l: Log)
    requires Grows(g, g') && Backed(g, l)
    ensures Backed(g', l)
  {
    forall i | 0 < i < |l| ensures BackedAt(g', l, i) {
      assert BackedAt(g, l, i) && TermGrows(g, g', l[i].term);
      AgreeTrans(l, g.elected[l[i].term].log, g'.elected[l[i].term].log, i + 1);
    }
  }

  lemma ChosenGrows(g: State, g': State, t: Term, k: nat)
    requires Grows(g, g') && Chosen(g, t, k)
    ensures Chosen(g', t, k) && Agree(g.elected[t].log, g'.elected[t].log, k)
  {
    assert TermGrows(g, g', t);
    assert Ackers(g, t, k) <= Ackers(g', t, k) by {
      forall s | s in Ackers(g, t, k) ensures s in Ackers(g', t, k) {
        assert SlotGrows(g, g', At(t, s));
      }
    }
    SubsetCount(Ackers(g, t, k), Ackers(g', t, k));
  }

  lemma CommittedGrows(g: State, g': State, t: Term, t': Term, l: Log, k: nat)
    requires Grows(g, g') && Committed(g, t, l, k) && t <= t'
    ensures Committed(g', t', l, k)
  {
    if k > 1 {
      var u: nat, m: nat :| u <= t && Chosen(g, u, m) && k <= m && Agree(l, g.elected[u].log, k);
      ChosenGrows(g, g', u, m);
      AgreeTrans(l, g.elected[u].log, g'.elected[u].log, k);
    }
  }

  lemma LacksGrows(g: State, g': State, t: Term, l: Log)
    requires Grows(g, g') && Lacks(g, t, l)
    ensures Lacks(g', t, l)
  {
    var u: nat, k: nat :| u < t && Chosen(g, u, k) && !Agree(g.elected[u].log, l, k);
    ChosenGrows(g, g', u, k);
    if Agree(g'.elected[u].log, l, k) {
      AgreeTrans(g.elected[u].log, g'.elected[u].log, l, k);
    }
  }

  lemma KeptGrows(g: State, g': State, t: Term, k: nat, l: Log, hi: int, hi': int)
    requires Grows(g, g') && Kept(g, t, k, l, hi) && hi <= hi'
    requires t in g.elected && k <= |g.elected[t].log|
    ensures Kept(g', t, k, l, hi')
  {
    assert TermGrows(g, g', t);
    forall j: nat | j <= k ensures KeptAt(g', t, j, l, hi') {
      assert KeptAt(g, t, j, l, hi);
      if Agree(g.elected[t].log, l, j) {
        AgreeTrans(g'.elected[t].log, g.elected[t].log, l, j);
      } else {
        var u: nat :| u <= hi && DroppedBy(g, t, j, u);
        assert TermGrows(g, g', u);
        if Agree(g'.elected[t].log, g'.elected[u].initial, j) {
          AgreeTrans(g.elected[t].log, g'.elected[t].log, g'.elected[u].initial, j);
        }
        assert DroppedBy(g', t, j, u);
      }
    }
  }

  /** The part of the invariant a step keeps because history grows and old acknowledgements stand. */
  ghost predicate Settled(g: State, g': State) {
    && Grows(g, g')
    && (forall k :: k in g'.acked && k.server < |g.terms| && k.term < g.terms[k.server] ==>
          k in g.acked && g'.acked[k] == g.acked[k])
  }

  lemma BallotKeepsGrows(g: State, g': State, k: Slot, t: Term)
    requires Inv(g) && Settled(g, g') && k in g.ballots
    requires Counts(g', k) ==> Counts(g, k)
    ensures BallotKeeps(g', k, t)
  {
    var a := At(t, k.server);
    if Counts(g', k) && a in g'.acked && t < k.term {
      assert BallotOk(g, k) && SlotGrows(g, g', k);
      assert a in g.acked && g'.acked[a] == g.acked[a];
      assert AckOk(g, a) && BallotKeeps(g, k, t);
      KeptGrows(g, g', t, g.acked[a], g.ballots[k].log, k.term - 1, k.term - 1);
    }
  }

  lemma StoodOkGrows(g: State, g': State, k: Slot)
    requires Inv(g) && Grows(g, g') && k in g.stood
    ensures StoodOk(g', k)
  {
    assert StoodOk(g, k) && SlotGrows(g, g', k);
    BackedGrows(g, g', g.stood[k]);
  }

  lemma BallotOkGrows(g: State, g': State, k: Slot)
    requires Inv(g) && Grows(g, g') && k in g.ballots
    ensures BallotOk(g', k)
  {
    assert BallotOk(g, k) && SlotGrows(g, g', k);
    assert SlotGrows(g, g', At(k.term, g.ballots[k].candidate));
    BackedGrows(g, g', g.ballots[k].log);
  }

  lemma ElectedOkGrows(g: State, g': State, t: Term)
    requires Inv(g) && Grows(g, g') && t in g.elected && t in g'.elected
    requires LeaderLogOk(t, g'.elected[t]) && Backed(g', g'.elected[t].log)
    ensures ElectedOk(g', t)
  {
    assert ElectedOk(g, t) && TermGrows(g, g', t);
    var e := g.elected[t];
    assert SlotGrows(g, g', At(t, e.leader));
    forall s | s in e.electors ensures At(t, s) in g'.ballots && g'.ballots[At(t, s)].candidate == e.leader {
      assert SlotGrows(g, g', At(t, s));
    }
  }

  lemma ElectedOkSame(g: State, g': State, t: Term)
    requires Inv(g) && Grows(g, g') && t in g.elected && t in g'.elected && g'.elected[t] == g.elected[t]
    ensures ElectedOk(g', t)
  {
    assert ElectedOk(g, t);
    BackedGrows(g, g', g.elected[t].log);
    ElectedOkGrows(g, g', t);
  }

  lemma AckOkSame(g: State, g': State, k: Slot)
    requires Inv(g) && Grows(g, g') && |g'.logs| == |g.logs| && k in g.acked && k in g'.acked
    requires k.server < |g.logs|
    requires g'.acked[k] == g.acked[k] && g'.logs[k.server] == g.logs[k.server]
    ensures AckOk(g', k)
  {
    assert AckOk(g, k) && SlotGrows(g, g', k) && TermGrows(g, g', k.term);
    KeptGrows(g, g', k.term, g.acked[k], g.logs[k.server], g.terms[k.server], g'.terms[k.server]);
  }

  lemma CandidateOkSame(g: State, g': State, k: Slot)
    requires Inv(g) && Grows(g, g') && |g'.logs| == |g.logs| && k in g.stood && k.server < |g.terms|
    requires g'.logs[k.server] == g.logs[k.server]
    ensures CandidateOk(g', k)
  {
    assert StoodOk(g, k) && CandidateOk(g, k) && SlotGrows(g, g', k) && TermGrows(g, g', k.term);
    if k.term == g.terms[k.server] && k.term !in g.elected && Lacks(g, k.term, g.stood[k]) {
      LacksGrows(g, g', k.term, g.stood[k]);
    }
  }

  /** An initial segment of a backed log is backed. */
  lemma PrefixBacked(g: State, m: Log, l: Log)
    requires Backed(g, l) && Prefix(m, l) && |m| > 0
    ensures Backed(g, m)
  {
    forall i | 0 < i < |m| ensures BackedAt(g, m, i) {
      assert BackedAt(g, l, i);
      AgreeTrans(m, l, g.elected[l[i].term].log, i + 1);
    }
  }

  /** A step that changes no log, no election and no acknowledgement keeps all old facts. */
  lemma OldFacts(g: State, g': State)
    requires Inv(g) && Grows(g, g')
    requires g'.logs == g.logs && g'.elected == g.elected && g'.acked == g.acked
    ensures forall k :: k in g.stood ==> StoodOk(g', k) && CandidateOk(g', k)
    ensures forall k :: k in g.ballots ==> BallotOk(g', k)
    ensures forall t :: ElectedOk(g', t)
    ensures forall k, t :: k in g.ballots ==> BallotKeeps(g', k, t)
    ensures forall s :: LogOk(g', s)
    ensures forall k :: AckOk(g', k)
  {
    forall k | k in g.stood ensures StoodOk(g', k) && CandidateOk(g', k) {
      assert StoodOk(g, k);
      StoodOkGrows(g, g', k);
      CandidateOkSame(g, g', k);
    }
    forall k | k in g.ballots ensures BallotOk(g', k) { BallotOkGrows(g, g', k); }
    forall t: nat ensures ElectedOk(g', t) { if t in g.elected { ElectedOkSame(g, g', t); } }
    forall k, t: nat | k in g.ballots ensures BallotKeeps(g', k, t) { BallotKeepsGrows(g, g', k, t); }
    forall s: nat ensures LogOk(g', s) {
      assert LogOk(g, s);
      if s < |g.logs| { BackedGrows(g, g', g.logs[s]); }
    }
    forall k ensures AckOk(g', k) {
      assert AckOk(g, k);
      if k in g.acked { AckOkSame(g, g', k); }
    }
  }

  /** Nobody leads a term it has not reached. */
  lemma LeaderReached(g: State, t: Term)
    requires Inv(g) && t in g.elected
    ensures g.elected[t].leader < |g.terms| && t <= g.terms[g.elected[t].leader]
  {
    assert ElectedOk(g, t) && StoodOk(g, At(t, g.elected[t].leader));
  }

  // ---------------------------------------------------------------- Advance, Stand, Cast

  lemma AdvanceKeeps(g: State, s: Server, t: Term)
    requires Inv(g) && s < |g.terms| && g.terms[s] < t
    ensures Inv(Advance(g, s, t)) && Grows(g, Advance(g, s, t))
  {
    var g' := Advance(g, s, t);
    assert Grows(g, g');
    OldFacts(g, g');
    forall u: nat ensures LeaderOk(g', u) {
      assert LeaderOk(g, u);
      if u in g.elected { LeaderReached(g, u); }
    }
  }

  /** A ballot just cast, in the voter's current term or the next, carries what it acknowledged. */
  lemma NewBallotKeeps(g: State, g': State, n: Slot, t: Term)
    requires Inv(g) && Grows(g, g') && g'.elected == g.elected && g'.acked == g.acked
    requires n !in g.ballots && n in g'.ballots && n.server < |g.terms|
    requires g.terms[n.server] <= n.term <= g.terms[n.server] + 1
    requires g'.ballots[n].log == g.logs[n.server]
    ensures BallotKeeps(g', n, t)
  {
    var a := At(t, n.server);
    if Counts(g', n) && a in g.acked && t < n.term {
      assert ElectedOk(g, n.term) && AckOk(g, a);
      var l := g.logs[n.server];
      if g.terms[n.server] == n.term {
        KeptLower(g, t, g.acked[a], l, n.term);
      }
      KeptGrows(g, g', t, g.acked[a], l, n.term - 1, n.term - 1);
    }
  }

  lemma StandKeeps(g: State, s: Server)
    requires Inv(g) && s < |g.terms|
    ensures Inv(Stand(g, s)) && Grows(g, Stand(g, s))
  {
    var g' := Stand(g, s);
    var n := At(g.terms[s] + 1, s);
    assert LogOk(g, s) && StoodOk(g, n) && BallotOk(g, n);
    assert Grows(g, g');
    OldFacts(g, g');
    BackedGrows(g, g', g.logs[s]);
    assert BallotOk(g', n) && StoodOk(g', n) && CandidateOk(g', n);
    forall u: nat ensures LeaderOk(g', u) {
      assert LeaderOk(g, u);
      if u in g.elected { LeaderReached(g, u); }
    }
    forall t: nat ensures BallotKeeps(g', n, t) { NewBallotKeeps(g, g', n, t); }
  }

  lemma CastKeeps(g: State, s: Server, c: Server)
    requires Inv(g) && s < |g.terms|
    requires At(g.terms[s], s) !in g.ballots && At(g.terms[s], c) in g.stood
    requires |g.stood[At(g.terms[s], c)]| > 0 && |g.logs[s]| > 0
    requires UpToDate(g.stood[At(g.terms[s], c)], g.logs[s])
    ensures Inv(Cast(g, s, c)) && Grows(g, Cast(g, s, c))
  {
    var g' := Cast(g, s, c);
    var n := At(g.terms[s], s);
    assert LogOk(g, s);
    assert Grows(g, g');
    OldFacts(g, g');
    BackedGrows(g, g', g.logs[s]);
    forall u: nat ensures LeaderOk(g', u) { assert LeaderOk(g, u); }
    forall t: nat ensures BallotKeeps(g', n, t) { NewBallotKeeps(g, g', n, t); }
  }

  /** A term without a leader drops nothing. */
  lemma KeptLower(g: State, t: Term, k: nat, l: Log, hi: Term)
    requires Kept(g, t, k, l, hi) && hi !in g.elected
    ensures Kept(g, t, k, l, hi - 1)
  {
    var lo := hi - 1;
    forall j: nat | j <= k ensures KeptAt(g, t, j, l, lo) {
      assert KeptAt(g, t, j, l, hi);
      if !Agree(g.elected[t].log, l, j) {
        var u: nat :| u <= hi && DroppedBy(g, t, j, u);
        assert u <= lo;
      }
    }
  }

  // ---------------------------------------------------------------- steps that change one log

  /** Terms, candidacies and ballots stand; only server s changes its log and acknowledgements. */
  ghost predicate OnlyLogOf(g: State, g': State, s: Server) {
    && Settled(g, g')
    && g'.terms == g.terms && g'.stood == g.stood && g'.ballots == g.ballots
    && |g'.logs| == |g.logs|
    && (forall x :: 0 <= x < |g.logs| && x != s ==> g'.logs[x] == g.logs[x])
    && (forall k: Slot :: k.server != s && k in g'.acked ==> k in g.acked && g'.acked[k] == g.acked[k])
    && (forall k :: Counts(g', k) ==> Counts(g, k))
  }

  lemma OtherFacts(g: State, g': State, s: Server)
    requires Inv(g) && OnlyLogOf(g, g', s)
    ensures forall k :: StoodOk(g', k)
    ensures forall k :: BallotOk(g', k)
    ensures forall k, t :: BallotKeeps(g', k, t)
    ensures forall x :: x != s ==> LogOk(g', x)
    ensures forall k: Slot :: k.server != s ==> AckOk(g', k) && CandidateOk(g', k)
  {
    forall k ensures StoodOk(g', k) { if k in g.stood { StoodOkGrows(g, g', k); } }
    forall k ensures BallotOk(g', k) { if k in g.ballots { BallotOkGrows(g, g', k); } }
    forall k, t: nat ensures BallotKeeps(g', k, t) {
      if k in g.ballots { BallotKeepsGrows(g, g', k, t); }
    }
    forall x: nat | x != s ensures LogOk(g', x) {
      assert LogOk(g, x);
      if x < |g.logs| { BackedGrows(g, g', g.logs[x]); }
    }
    forall k: Slot | k.server != s ensures AckOk(g', k) && CandidateOk(g', k) {
      assert AckOk(g, k) && StoodOk(g, k);
      if k in g'.acked { AckOkSame(g, g', k); }
      if k in g.stood { CandidateOkSame(g, g', k); }
    }
  }

  /** Leaders of other terms than that of s are not affected by what s does to its log. */
  lemma OtherTerms(g: State, g': State, s: Server, t: Term)
    requires Inv(g) && OnlyLogOf(g, g', s) && s < |g.terms| && t != g.terms[s]
    requires t in g'.elected ==> t in g.elected && g'.elected[t] == g.elected[t]
    ensures ElectedOk(g', t) && LeaderOk(g', t)
  {
    assert LeaderOk(g, t);
    if t in g'.elected {
      ElectedOkSame(g, g', t);
      LeaderReached(g, t);
      assert SlotGrows(g, g', At(t, g.elected[t].leader));
    }
  }

  /** What s acknowledged in term t is still kept after its log changes from l to l'. */
  lemma AckOkLog(g: State, g': State, k: Slot)
    requires Inv(g) && Grows(g, g') && |g'.logs| == |g.logs|
    requires k in g.acked && k in g'.acked && g'.acked[k] == g.acked[k]
    requires k.server < |g.logs| && g'.terms == g.terms
    requires forall j: nat :: j <= g.acked[k] && k.term in g.elected && Agree(g.elected[k.term].log, g.logs[k.server], j) ==>
               KeptAt(g', k.term, j, g'.logs[k.server], g'.terms[k.server])
    ensures AckOk(g', k)
  {
    assert AckOk(g, k) && TermGrows(g, g', k.term);
    var t, hi := k.term, g.terms[k.server];
    KeptGrows(g, g', t, g.acked[k], g.logs[k.server], hi, hi);
    forall j: nat | j <= g.acked[k] ensures KeptAt(g', t, j, g'.logs[k.server], hi) {
      assert KeptAt(g, t, j, g.logs[k.server], hi) && KeptAt(g', t, j, g.logs[k.server], hi);
    }
  }

  // ---------------------------------------------------------------- Elect, Lead

  /** The winner of an election still has the log it stood with. */
  lemma WinnerLog(g: State, s: Server, q: set<Server>)
    requires Inv(g) && s < |g.terms| && g.terms[s] !in g.elected && At(g.terms[s], s) in g.stood
    requires Majority(|g.terms|, q) && VotedFor(g, g.terms[s], s, q)
    ensures g.logs[s] == g.stood[At(g.terms[s], s)]
  {
    var t := g.terms[s];
    assert CandidateOk(g, At(t, s));
    if Lacks(g, t, g.stood[At(t, s)]) {
      var u: nat, k: nat :| u < t && Chosen(g, u, k) && !Agree(g.elected[u].log, g.stood[At(t, s)], k);
      WinnerHasChosen(g, u, k, t, s, q);
    }
  }

  /** An entry of term t at the end of a backed log, once that log is the log of term t. */
  lemma GrownBacked(g: State, g': State, l: Log, t: Term, c: Command)
    requires Grows(g, g') && Backed(g, l)
    requires t in g'.elected && g'.elected[t].log == Grown(l, t, c)
    ensures Backed(g', Grown(l, t, c))
  {
    var l' := Grown(l, t, c);
    BackedGrows(g, g', l);
    forall i | 0 < i < |l'| ensures BackedAt(g', l', i) {
      if i < |l| {
        assert BackedAt(g', l, i);
        AgreeTrans(l', l, g'.elected[l[i].term].log, i + 1);
      }
    }
  }

  /** The log of s grew at the end: acknowledgements and the log itself are in order. */
  lemma LogGrew(g: State, g': State, s: Server)
    requires Inv(g) && OnlyLogOf(g, g', s) && s < |g.terms|
    requires Prefix(g.logs[s], g'.logs[s])
    requires At(g.terms[s], s) in g'.acked && g.terms[s] in g'.elected
    requires g'.elected[g.terms[s]].log == g'.logs[s] && g'.acked[At(g.terms[s], s)] == |g'.logs[s]|
    requires forall t :: At(t, s) in g'.acked && t != g.terms[s] ==>
               At(t, s) in g.acked && g'.acked[At(t, s)] == g.acked[At(t, s)]
    ensures forall k: Slot :: k.server == s ==> AckOk(g', k) && CandidateOk(g', k)
  {
    forall k: Slot | k.server == s ensures AckOk(g', k) && CandidateOk(g', k) {
      var t := g.terms[s];
      if k.term == t {
        forall j: nat | j <= |g'.logs[s]| ensures KeptAt(g', t, j, g'.logs[s], t) {
        }
      } else if k in g'.acked {
        assert AckOk(g, k) && TermGrows(g, g', k.term);
        forall j: nat | j <= g.acked[k] && Agree(g.elected[k.term].log, g.logs[s], j)
          ensures KeptAt(g', k.term, j, g'.logs[s], t) {
          AgreeTrans(g'.elected[k.term].log, g.elected[k.term].log, g.logs[s], j);
          AgreeTrans(g'.elected[k.term].log, g.logs[s], g'.logs[s], j);
        }
        AckOkLog(g, g', k);
      }
    }
  }

  lemma ElectGrows(g: State, s: Server, q: set<Server>)
    requires Inv(g) && s < |g.terms| && g.terms[s] !in g.elected
    ensures OnlyLogOf(g, Elect(g, s, q), s)
  {
    assert AckOk(g, At(g.terms[s], s));
    assert Grows(g, Elect(g, s, q));
  }

  lemma LeadGrows(g: State, s: Server, c: Command)
    requires Inv(g) && s < |g.terms| && g.terms[s] in g.elected && g.elected[g.terms[s]].leader == s
    ensures OnlyLogOf(g, Lead(g, s, c), s)
  {
    var t, g' := g.terms[s], Lead(g, s, c);
    assert LeaderOk(g, t) && AckOk(g, At(t, s));
    forall u: nat ensures TermGrows(g, g', u) {}
    forall k ensures SlotGrows(g, g', k) {}
    assert Grows(g, g');
  }

  lemma ElectKeeps(g: State, s: Server, q: set<Server>)
    requires Inv(g) && s < |g.terms| && g.terms[s] !in g.elected && At(g.terms[s], s) in g.stood
    requires Majority(|g.terms|, q) && VotedFor(g, g.terms[s], s, q)
    ensures Inv(Elect(g, s, q)) && Grows(g, Elect(g, s, q))
  {
    var g', t, l := Elect(g, s, q), g.terms[s], g.logs[s];
    assert LogOk(g, s) && StoodOk(g, At(t, s));
    WinnerLog(g, s, q);
    ElectGrows(g, s, q);
    OtherFacts(g, g', s);
    LogGrew(g, g', s);
    GrownBacked(g, g', l, t, Nop);
    assert LogOk(g', s);
    forall u: nat ensures ElectedOk(g', u) && LeaderOk(g', u) {
      if u == t {
        assert LeaderLogOk(t, g'.elected[t]);
      } else {
        OtherTerms(g, g', s, u);
      }
    }
  }

  lemma LeadKeeps(g: State, s: Server, c: Command)
    requires Inv(g) && s < |g.terms| && g.terms[s] in g.elected && g.elected[g.terms[s]].leader == s
    ensures Inv(Lead(g, s, c)) && Grows(g, Lead(g, s, c))
    ensures g.logs[s] == g.elected[g.terms[s]].log
  {
    var g', t, l := Lead(g, s, c), g.terms[s], g.logs[s];
    assert LogOk(g, s) && LeaderOk(g, t) && ElectedOk(g, t);
    LeadGrows(g, s, c);
    OtherFacts(g, g', s);
    LogGrew(g, g', s);
    GrownBacked(g, g', l, t, c);
    assert LogOk(g', s);
    forall u: nat ensures ElectedOk(g', u) && LeaderOk(g', u) {
      if u == t {
        assert LeaderLogOk(t, g'.elected[t]);
        ElectedOkGrows(g, g', t);
      } else {
        OtherTerms(g, g', s, u);
      }
    }
  }

  // ---------------------------------------------------------------- Accept, Install

  /** Of two initial segments of one log, the shorter is an initial segment of the longer. */
  lemma Comparable(a: Log, b: Log, l: Log, j: nat, k: nat)
    requires Agree(a, l, j) && Agree(b, l, k) && j <= k
    ensures Agree(a, b, j)
  {
    forall i | 0 <= i < j ensures a[i] == b[i] {
      assert a[i] == l[i];
    }
  }

  lemma ShorterContained(m: Log, a: Log, b: Log, l: Log, j: nat)
    requires Agree(a, l, j) && Agree(a, b, j) && Prefix(m, b)
    ensures |m| <= j ==> Prefix(m, l)
  {
    forall i | 0 <= i < |m| <= j ensures m[i] == l[i] {
      assert m[i] == b[i] == a[i];
    }
  }

  /**
   Replacing the log by m, an initial segment of the log of term u >= t, loses no entry of term t's
   log that the server had, unless the leader of u started without it: m is not already contained.
   */
  lemma ReplacedKeeps(g: State, t: Term, u: Term, j: nat, l: Log, m: Log)
    requires forall x :: ElectedOk(g, x)
    requires t in g.elected && u in g.elected && t <= u
    requires Agree(g.elected[t].log, l, j)
    requires Prefix(m, g.elected[u].log) && !Prefix(m, l)
    ensures KeptAt(g, t, j, m, u)
  {
    var lt, lu := g.elected[t].log, g.elected[u].log;
    assert ElectedOk(g, u);
    if t < u && !Agree(lt, g.elected[u].initial, j) {
      assert DroppedBy(g, t, j, u);
    } else {
      if t < u { AgreeTrans(lt, g.elected[u].initial, lu, j); }
      ShorterContained(m, lt, lu, l, j);
      Comparable(lt, m, lu, j, |m|);
    }
  }

  lemma AcceptGrows(g: State, s: Server, m: Log)
    requires Inv(g) && s < |g.terms|
    ensures OnlyLogOf(g, Accept(g, s, m), s)
  {
    assert Grows(g, Accept(g, s, m));
  }

  lemma AcceptAcks(g: State, s: Server, m: Log, k: Slot)
    requires Inv(g) && s < |g.terms| && g.terms[s] in g.elected && k.server == s
    requires Prefix(m, g.elected[g.terms[s]].log)
    ensures AckOk(Accept(g, s, m), k)
  {
    var g', t, l := Accept(g, s, m), g.terms[s], g.logs[s];
    AcceptGrows(g, s, m);
    if k in g'.acked {
      assert AckOk(g, k);
      forall j: nat | j <= g'.acked[k] ensures KeptAt(g', k.term, j, g'.logs[s], t) {
        if k in g.acked && j <= g.acked[k] {
          assert KeptAt(g, k.term, j, l, t);
          if Prefix(m, l) || !Agree(g.elected[k.term].log, l, j) {
            KeptSame(g, g', k.term, j, l, t);
          } else {
            ReplacedKeeps(g, k.term, t, j, l, m);
            KeptSame(g, g', k.term, j, m, t);
          }
        } else {
          assert k.term == t && j <= |m|;
          Comparable(g.elected[t].log, m, g.elected[t].log, j, |m|);
          AgreeTrans(g.elected[t].log, m, g'.logs[s], j);
        }
      }
    }
  }

  /** Keeping does not depend on anything but the elections; a dropped prefix stays dropped. */
  lemma KeptSame(g: State, g': State, t: Term, j: nat, l: Log, hi: int)
    requires g'.elected == g.elected && KeptAt(g, t, j, l, hi)
    ensures KeptAt(g', t, j, l, hi)
    ensures !Agree(g.elected[t].log, l, j) ==> forall l' :: KeptAt(g', t, j, l', hi)
  {
    if !Agree(g.elected[t].log, l, j) {
      var u: nat :| u <= hi && DroppedBy(g, t, j, u);
      assert DroppedBy(g', t, j, u);
    }
  }

  lemma AcceptKeeps(g: State, s: Server, m: Log)
    requires Inv(g) && s < |g.terms| && g.terms[s] in g.elected
    requires |m| > 0 && Prefix(m, g.elected[g.terms[s]].log)
    ensures Inv(Accept(g, s, m)) && Grows(g, Accept(g, s, m))
  {
    var g', t, l := Accept(g, s, m), g.terms[s], g.logs[s];
    assert LogOk(g, s) && LeaderOk(g, t) && ElectedOk(g, t);
    AcceptGrows(g, s, m);
    OtherFacts(g, g', s);
    PrefixBacked(g, m, g.elected[t].log);
    BackedGrows(g, g', m);
    BackedGrows(g, g', l);
    LeaderTerms(t, g.elected[t]);
    assert LogOk(g', s);
    forall u: nat ensures ElectedOk(g', u) && LeaderOk(g', u) {
      if u == t { ElectedOkSame(g, g', t); } else { OtherTerms(g, g', s, u); }
    }
    forall k: Slot | k.server == s ensures AckOk(g', k) && CandidateOk(g', k) {
      AcceptAcks(g, s, m, k);
    }
  }

  /** Installing a prefix the log already has changes nothing. */
  lemma InstalledSame(l: Log, p: Log)
    requires |p| > 0 && Prefix(p, l)
    ensures Installed(l, p) == l
  {
    if |p| >= |l| {
      assert p == l;
    }
  }

  /** A committed log is backed, and its terms are bounded by the term that committed it. */
  lemma CommittedBacked(g: State, t: Term, p: Log)
    requires (forall x :: ElectedOk(g, x)) && Committed(g, t, p, |p|)
    ensures Backed(g, p) && TermsAtMost(p, t)
  {
    if |p| > 1 {
      var u: nat, m: nat :| u <= t && Chosen(g, u, m) && |p| <= m && Agree(p, g.elected[u].log, |p|);
      assert ElectedOk(g, u);
      PrefixBacked(g, p, g.elected[u].log);
      LeaderTerms(u, g.elected[u]);
    }
  }

  lemma ContainedVia(p: Log, a: Log, l: Log, m: nat)
    requires Prefix(p, a) && |p| <= m
    ensures Agree(a, l, m) ==> Prefix(p, l)
  {
    forall i | 0 <= i < |p| && Agree(a, l, m) ensures p[i] == l[i] {
      assert p[i] == a[i];
    }
  }

  /** A candidate that does not have a committed prefix stood without something chosen. */
  lemma CommittedMissing(g: State, t: Term, p: Log, l: Log)
    requires Committed(g, t, p, |p|) && t !in g.elected && !Prefix(p, l) && |l| > 0 && l[0] == SENTINEL
    ensures Lacks(g, t, l)
  {
    var u: nat, m: nat :| u <= t && Chosen(g, u, m) && |p| <= m && Agree(p, g.elected[u].log, |p|);
    ContainedVia(p, g.elected[u].log, l, m);
    assert u < t && Chosen(g, u, m) && !Agree(g.elected[u].log, l, m);
  }

  /** Installing a committed prefix loses nothing acknowledged that later leaders have not dropped. */
  lemma InstallAcks(g: State, s: Server, p: Log, k: Slot, j: nat)
    requires Inv(g) && s < |g.terms| && |p| > 0 && Committed(g, g.terms[s], p, |p|)
    requires k in g.acked && k.server == s && j <= g.acked[k] && k.term in g.elected
    requires Agree(g.elected[k.term].log, g.logs[s], j)
    ensures KeptAt(g, k.term, j, Installed(g.logs[s], p), g.terms[s])
  {
    assert AckOk(g, k) && LogOk(g, s);
    var l, hi, lt := g.logs[s], g.terms[s], g.elected[k.term].log;
    if Prefix(p, l) {
      InstalledSame(l, p);
    } else if Installed(l, p) == p {
      var u: nat, m: nat :| u <= hi && Chosen(g, u, m) && |p| <= m && Agree(p, g.elected[u].log, |p|);
      if u < k.term {
        CommittedInLeader(g, u, p, |p|, k.term);
        ReplacedKeeps(g, k.term, k.term, j, l, p);
      } else {
        ReplacedKeeps(g, k.term, u, j, l, p);
        KeptHigher(g, k.term, j, p, u, hi);
      }
    }
  }

  lemma KeptHigher(g: State, t: Term, j: nat, l: Log, hi: int, hi': int)
    requires KeptAt(g, t, j, l, hi) && hi <= hi'
    ensures KeptAt(g, t, j, l, hi')
  {
    if !Agree(g.elected[t].log, l, j) {
      var u: nat :| u <= hi && DroppedBy(g, t, j, u);
      assert u <= hi';
    }
  }

  lemma InstallGrows(g: State, s: Server, p: Log)
    requires Inv(g) && s < |g.terms| && |p| > 0
    ensures OnlyLogOf(g, Install(g, s, p), s)
  {
    assert Grows(g, Install(g, s, p));
  }

  lemma InstallKeeps(g: State, s: Server, p: Log)
    requires Inv(g) && s < |g.terms| && |p| > 0 && Committed(g, g.terms[s], p, |p|)
    ensures Inv(Install(g, s, p)) && Grows(g, Install(g, s, p))
  {
    var g', t, l := Install(g, s, p), g.terms[s], g.logs[s];
    assert LogOk(g, s) && LeaderOk(g, t);
    InstallGrows(g, s, p);
    OtherFacts(g, g', s);
    CommittedBacked(g, t, p);
    BackedGrows(g, g', p);
    BackedGrows(g, g', l);
    assert LogOk(g', s);
    forall u: nat ensures ElectedOk(g', u) && LeaderOk(g', u) {
      if u != t {
        OtherTerms(g, g', s, u);
      } else if t in g.elected {
        ElectedOkSame(g, g', t);
        CommittedInLeader(g, t, p, |p|, t);
        if g.elected[t].leader == s { InstalledSame(l, p); }
      }
    }
    forall k: Slot | k.server == s ensures AckOk(g', k) && CandidateOk(g', k) {
      InstallFacts(g, s, p, k);
    }
  }

  lemma InstallFacts(g: State, s: Server, p: Log, k: Slot)
    requires Inv(g) && s < |g.terms| && |p| > 0 && Committed(g, g.terms[s], p, |p|) && k.server == s
    ensures AckOk(Install(g, s, p), k) && CandidateOk(Install(g, s, p), k)
  {
    var g', t, l := Install(g, s, p), g.terms[s], g.logs[s];
    InstallGrows(g, s, p);
    if k in g.acked {
      forall j: nat | j <= g.acked[k] && k.term in g.elected && Agree(g.elected[k.term].log, l, j)
        ensures KeptAt(g', k.term, j, g'.logs[s], t) {
        InstallAcks(g, s, p, k, j);
        KeptSame(g, g', k.term, j, g'.logs[s], t);
      }
      AckOkLog(g, g', k);
    }
    if k in g.stood && k.term == t && t !in g.elected {
      assert LogOk(g, s) && CandidateOk(g, k);
      if Lacks(g, t, g.stood[k]) {
        LacksGrows(g, g', t, g.stood[k]);
      } else if Prefix(p, l) {
        InstalledSame(l, p);
      } else {
        CommittedMissing(g, t, p, l);
        LacksGrows(g, g', t, l);
      }
    }
  }
}
