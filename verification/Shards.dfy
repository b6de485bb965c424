/**
 Assignments of shards to replica groups and the balancing rule of src/shardkv1/shardcfg/shardcfg.go,
 on values: what Rebalance computes and what its callers may rely on.
 */
module Shards {

  type Gid = int

  /** Number of shards assigned to a group of `gs`. */
  function On(s: seq<Gid>, gs: set<Gid>): nat {
    if s == [] then 0 else On(s[..|s| - 1], gs) + if s[|s| - 1] in gs then 1 else 0
  }

  function Load(s: seq<Gid>, g: Gid): nat {
    On(s, {g})
  }

  /** Number of shards on which two assignments differ. */
  function Moved(s: seq<Gid>, t: seq<Gid>): nat
    requires |s| == |t|
  {
    if s == [] then 0
    else Moved(s[..|s| - 1], t[..|t| - 1]) + if s[|s| - 1] != t[|t| - 1] then 1 else 0
  }

  ghost predicate Live(s: seq<Gid>, groups: set<Gid>) {
    forall i :: 0 <= i < |s| ==> s[i] in groups
  }

  ghost predicate Balanced(s: seq<Gid>, groups: set<Gid>) {
    forall g, h :: g in groups && h in groups ==> Load(s, g) <= Load(s, h) + 1
  }

  // ---------------------------------------------------------------- the most and the least loaded group

  /** The most loaded group; among equals, the one of smallest id. */
  predicate IsMost(s: seq<Gid>, groups: set<Gid>, g: Gid) {
    g in groups && forall h :: h in groups ==> Load(s, h) < Load(s, g) || (Load(s, h) == Load(s, g) && g <= h)
  }

  predicate IsLeast(s: seq<Gid>, groups: set<Gid>, g: Gid) {
    g in groups && forall h :: h in groups ==> Load(s, g) < Load(s, h) || (Load(s, h) == Load(s, g) && g <= h)
  }

  lemma Pick<T>(gs: set<T>) returns (g: T)
    requires gs != {}
    ensures g in gs
  {
    g :| g in gs;
  }

  lemma {:induction false} ExtremesExist(s: seq<Gid>, groups: set<Gid>)
    requires groups != {}
    ensures (exists g :: IsMost(s, groups, g)) && (exists g :: IsLeast(s, groups, g))
    decreases |groups|
  {
    var x := Pick(groups);
    var rest := groups - {x};
    if rest == {} {
      assert forall h :: h in groups ==> h == x || h in rest;
      assert IsMost(s, groups, x) && IsLeast(s, groups, x);
    } else {
      ExtremesExist(s, rest);
      var m :| IsMost(s, rest, m);
      var l :| IsLeast(s, rest, l);
      assert IsMost(s, groups, m) || IsMost(s, groups, x);
      assert IsLeast(s, groups, l) || IsLeast(s, groups, x);
    }
  }

  ghost function Most(s: seq<Gid>, groups: set<Gid>): Gid
    requires groups != {}
  {
    ExtremesExist(s, groups);
    var g :| IsMost(s, groups, g);
    g
  }

  ghost function Least(s: seq<Gid>, groups: set<Gid>): Gid
    requires groups != {}
  {
    ExtremesExist(s, groups);
    var g :| IsLeast(s, groups, g);
    g
  }

  /** Where the first shard of a group stands. */
  predicate IsFirst(s: seq<Gid>, g: Gid, p: nat) {
    p < |s| && s[p] == g && forall q :: 0 <= q < p ==> s[q] != g
  }

  function First(s: seq<Gid>, g: Gid): (p: nat)
    requires Load(s, g) > 0
    ensures IsFirst(s, g, p)
  {
    if On(s[..|s| - 1], {g}) > 0
    then
      var p := First(s[..|s| - 1], g);
      assert forall q :: 0 <= q < p ==> s[q] == s[..|s| - 1][q];
      p
    else NoneBelow(s[..|s| - 1], g); |s| - 1
  }

  lemma {:induction false} NoneBelow(s: seq<Gid>, g: Gid)
    requires Load(s, g) == 0
    ensures forall q :: 0 <= q < |s| ==> s[q] != g
  {
    if s != [] {
      NoneBelow(s[..|s| - 1], g);
      assert forall q :: 0 <= q < |s| - 1 ==> s[q] == s[..|s| - 1][q];
    }
  }

  // ---------------------------------------------------------------- counting

  lemma {:induction false} OnUpdate(s: seq<Gid>, p: nat, h: Gid, gs: set<Gid>)
    requires p < |s|
    ensures On(s[p := h], gs) + (if s[p] in gs then 1 else 0) == On(s, gs) + if h in gs then 1 else 0
  {
    var n := |s| - 1;
    var t := s[p := h];
    if p == n {
      assert t[..n] == s[..n];
    } else {
      assert t[..n] == s[..n][p := h];
      OnUpdate(s[..n], p, h, gs);
    }
  }

  lemma {:induction false} OnSplit(s: seq<Gid>, gs: set<Gid>, g: Gid)
    requires g in gs
    ensures On(s, gs) == On(s, gs - {g}) + Load(s, g)
  {
    if s != [] { OnSplit(s[..|s| - 1], gs, g); }
  }

  lemma {:induction false} OnNone(s: seq<Gid>)
    ensures On(s, {}) == 0
  {
    if s != [] { OnNone(s[..|s| - 1]); }
  }

  lemma {:induction false} OnAtMost(s: seq<Gid>, gs: set<Gid>)
    ensures On(s, gs) <= |s|
  {
    if s != [] { OnAtMost(s[..|s| - 1], gs); }
  }

  /** If no group of gs carries less in t, neither do they together. */
  lemma {:induction false} OnMono(s: seq<Gid>, t: seq<Gid>, gs: set<Gid>)
    requires forall g :: g in gs ==> Load(s, g) <= Load(t, g)
    ensures On(s, gs) <= On(t, gs)
    decreases |gs|
  {
    if gs == {} {
      OnNone(s);
      OnNone(t);
    } else {
      var g := Pick(gs);
      OnSplit(s, gs, g);
      OnSplit(t, gs, g);
      OnMono(s, t, gs - {g});
    }
  }

  // ---------------------------------------------------------------- termination

  /** Pairs of shards that share a group: half of the sum of squared loads, less the number of shards. */
  function Pairs(s: seq<Gid>): nat {
    if s == [] then 0 else Pairs(s[..|s| - 1]) + Load(s[..|s| - 1], s[|s| - 1])
  }

  /** Moving a shard loses its pairs in the old group and gains a pair with each shard of the new. */
  lemma {:induction false} PairsUpdate(s: seq<Gid>, p: nat, h: Gid)
    requires p < |s| && s[p] != h
    ensures Pairs(s[p := h]) + Load(s, s[p]) == Pairs(s) + 1 + Load(s, h)
  {
    var n := |s| - 1;
    var t := s[p := h];
    if p == n {
      assert t[..n] == s[..n];
    } else {
      assert t[..n] == s[..n][p := h];
      PairsUpdate(s[..n], p, h);
      OnUpdate(s[..n], p, h, {s[n]});
    }
  }

  lemma MoveLessens(s: seq<Gid>, p: nat, h: Gid)
    requires p < |s| && Load(s, s[p]) >= Load(s, h) + 2
    ensures Pairs(s[p := h]) < Pairs(s)
  {
    PairsUpdate(s, p, h);
  }

  // ---------------------------------------------------------------- Rebalance

  /** Shards from i on whose group is gone go, one after the other, to the least loaded group. */
  ghost function Adopt(s: seq<Gid>, groups: set<Gid>, i: nat): seq<Gid>
    requires groups != {} && i <= |s|
    decreases |s| - i
  {
    if i == |s| then s
    else Adopt(if s[i] in groups then s else s[i := Least(s, groups)], groups, i + 1)
  }

  /** While the extremes differ by two, the first shard of the most loaded group goes to the least loaded. */
  ghost function Spread(s: seq<Gid>, groups: set<Gid>): seq<Gid>
    requires groups != {}
    decreases Pairs(s)
  {
    var m, l := Most(s, groups), Least(s, groups);
    if Load(s, m) < Load(s, l) + 2 then s
    else
      var p := First(s, m);
      MoveLessens(s, p, l);
      Spread(s[p := l], groups)
  }

  ghost function Rebalanced(s: seq<Gid>, groups: set<Gid>): seq<Gid> {
    if groups == {} then seq(|s|, i => 0) else Spread(Adopt(s, groups, 0), groups)
  }

  // ---------------------------------------------------------------- what moved, and why

  /** Group e has gained since s. */
  predicate Gained(s: seq<Gid>, t: seq<Gid>, e: Gid) {
    Load(s, e) < Load(t, e)
  }

  predicate Lost(s: seq<Gid>, t: seq<Gid>, d: Gid) {
    Load(t, d) < Load(s, d)
  }

  /** Shard i is where it was, or went from a group that is gone or has lost to one that has gained. */
  ghost predicate MoveOk(s: seq<Gid>, t: seq<Gid>, groups: set<Gid>, i: nat)
    requires |s| == |t| && i < |s|
  {
    t[i] == s[i] || ((s[i] in groups ==> Lost(s, t, s[i])) && t[i] in groups && Gained(s, t, t[i]))
  }

  /**
   On the way from s to a balanced assignment, groups that gained are within one of the least, groups
   that lost are within one of the most, and none that gained has more than one that lost.
   */
  ghost predicate Frugal(s: seq<Gid>, t: seq<Gid>, groups: set<Gid>) {
    && |s| == |t|
    && (forall i :: 0 <= i < |s| ==> MoveOk(s, t, groups, i))
    && (forall e, g :: e in groups && g in groups && Gained(s, t, e) ==> Load(t, e) <= Load(t, g) + 1)
    && (forall d, g :: d in groups && g in groups && Lost(s, t, d) ==> Load(t, g) <= Load(t, d) + 1)
    && (forall d, e :: d in groups && e in groups && Lost(s, t, d) && Gained(s, t, e) ==> Load(t, e) <= Load(t, d))
  }

  /** If shard i has left a live group, so has every earlier shard of that group. */
  ghost predicate EarliestLeft(s: seq<Gid>, t: seq<Gid>, groups: set<Gid>) {
    |s| == |t| && forall i, j :: 0 <= j < i < |s| && s[j] == s[i] && s[i] in groups && t[i] != s[i] ==> t[j] != s[j]
  }

  /** How a move changes the loads. */
  lemma MoveLoads(t: seq<Gid>, p: nat, l: Gid)
    requires p < |t| && t[p] != l
    ensures Load(t[p := l], l) == Load(t, l) + 1 && Load(t[p := l], t[p]) + 1 == Load(t, t[p])
    ensures forall g :: g != l && g != t[p] ==> Load(t[p := l], g) == Load(t, g)
  {
    forall g ensures Load(t[p := l], g) + (if g == t[p] then 1 else 0) == Load(t, g) + if g == l then 1 else 0 {
      OnUpdate(t, p, l, {g});
    }
  }

  /** One move, from position p to the least loaded group l, of an orphan or of a far more loaded group. */
  ghost predicate Justified(s: seq<Gid>, t: seq<Gid>, groups: set<Gid>, p: nat, l: Gid) {
    && p < |t| && IsLeast(t, groups, l)
    && (|| (t[p] !in groups && forall d :: d in groups ==> !Lost(s, t, d))
        || (IsMost(t, groups, t[p]) && Load(t, t[p]) >= Load(t, l) + 2))
  }

  lemma MovePlaces(s: seq<Gid>, t: seq<Gid>, groups: set<Gid>, p: nat, l: Gid, i: nat)
    requires Frugal(s, t, groups) && Justified(s, t, groups, p, l) && i < |s|
    ensures MoveOk(s, t[p := l], groups, i)
  {
    MoveLoads(t, p, l);
    assert MoveOk(s, t, groups, i) && MoveOk(s, t, groups, p);
  }

  lemma MoveFrugal(s: seq<Gid>, t: seq<Gid>, groups: set<Gid>, p: nat, l: Gid)
    requires Frugal(s, t, groups) && Justified(s, t, groups, p, l)
    ensures Frugal(s, t[p := l], groups)
    ensures t[p] !in groups ==> forall d :: d in groups ==> !Lost(s, t[p := l], d)
  {
    var u := t[p := l];
    MoveLoads(t, p, l);
    forall i | 0 <= i < |s| ensures MoveOk(s, u, groups, i) { MovePlaces(s, t, groups, p, l, i); }
  }

  lemma FrugalRefl(s: seq<Gid>, groups: set<Gid>)
    ensures Frugal(s, s, groups)
  {
  }

  lemma {:induction false} AdoptFrugal(s: seq<Gid>, t: seq<Gid>, groups: set<Gid>, i: nat)
    requires groups != {} && i <= |t| && Frugal(s, t, groups)
    requires forall d :: d in groups ==> !Lost(s, t, d)
    requires forall j :: 0 <= j < i ==> t[j] in groups
    ensures Frugal(s, Adopt(t, groups, i), groups) && Live(Adopt(t, groups, i), groups)
    decreases |t| - i
  {
    if i < |t| {
      var u := if t[i] in groups then t else t[i := Least(t, groups)];
      if t[i] !in groups { MoveFrugal(s, t, groups, i, Least(t, groups)); }
      AdoptFrugal(s, u, groups, i + 1);
    }
  }

  lemma {:induction false} SpreadFrugal(s: seq<Gid>, t: seq<Gid>, groups: set<Gid>)
    requires groups != {} && Frugal(s, t, groups) && Live(t, groups)
    ensures var u := Spread(t, groups); Frugal(s, u, groups) && Live(u, groups) && Balanced(u, groups)
    decreases Pairs(t)
  {
    var m, l := Most(t, groups), Least(t, groups);
    assert IsMost(t, groups, m) && IsLeast(t, groups, l);
    if Load(t, m) >= Load(t, l) + 2 {
      var p := First(t, m);
      MoveLessens(t, p, l);
      MoveFrugal(s, t, groups, p, l);
      SpreadFrugal(s, t[p := l], groups);
    }
  }

  /** Rebalancing leaves every shard on a live group and loads within one of each other. */
  lemma RebalancedBalances(s: seq<Gid>, groups: set<Gid>)
    ensures |Rebalanced(s, groups)| == |s|
    ensures groups != {} ==> Live(Rebalanced(s, groups), groups) && Balanced(Rebalanced(s, groups), groups)
    ensures groups != {} ==> Frugal(s, Rebalanced(s, groups), groups)
  {
    if groups != {} {
      FrugalRefl(s, groups);
      AdoptFrugal(s, s, groups, 0);
      SpreadFrugal(s, Adopt(s, groups, 0), groups);
    }
  }

  /** With no group left, every shard is un-assigned. */
  lemma RebalancedNobody(s: seq<Gid>, i: nat)
    requires i < |s|
    ensures |Rebalanced(s, {})| == |s| && Rebalanced(s, {})[i] == 0
  {
  }

  // ---------------------------------------------------------------- nothing moves needlessly

  /** A shard leaves a live group only for one that had at least two shards less. */
  lemma MovedDownhill(s: seq<Gid>, groups: set<Gid>, i: nat)
    requires groups != {} && i < |s|
    ensures |Rebalanced(s, groups)| == |s|
    ensures var t := Rebalanced(s, groups);
            t[i] != s[i] && s[i] in groups ==> Load(s, s[i]) >= Load(s, t[i]) + 2
  {
    RebalancedBalances(s, groups);
    assert MoveOk(s, Rebalanced(s, groups), groups, i);
  }

  /** From a balanced assignment, joining groups get shards and no other group does. */
  lemma JoinMovesToNew(s: seq<Gid>, groups: set<Gid>, joining: set<Gid>, i: nat)
    requires joining != {} && groups !! joining && i < |s|
    requires groups != {} ==> Live(s, groups) && Balanced(s, groups)
    ensures |Rebalanced(s, groups + joining)| == |s|
    ensures var t := Rebalanced(s, groups + joining); t[i] == s[i] || t[i] in joining
  {
    RebalancedBalances(s, groups + joining);
    assert MoveOk(s, Rebalanced(s, groups + joining), groups + joining, i);
    MovedDownhill(s, groups + joining, i);
  }

  /** From a balanced assignment, only shards of leaving groups move. */
  lemma LeaveMovesOrphans(s: seq<Gid>, groups: set<Gid>, staying: set<Gid>, i: nat)
    requires staying != {} && staying <= groups && i < |s| && Live(s, groups) && Balanced(s, groups)
    ensures |Rebalanced(s, staying)| == |s|
    ensures Rebalanced(s, staying)[i] == s[i] <==> s[i] in staying
  {
    RebalancedBalances(s, staying);
    assert MoveOk(s, Rebalanced(s, staying), staying, i);
    MovedDownhill(s, staying, i);
  }

  /** Shards entering gs are among those moved. */
  lemma {:induction false} EnteringMoved(s: seq<Gid>, t: seq<Gid>, gs: set<Gid>)
    requires |s| == |t|
    ensures On(t, gs) <= On(s, gs) + Moved(s, t)
  {
    if s != [] { EnteringMoved(s[..|s| - 1], t[..|t| - 1], gs); }
  }

  ghost predicate Enters(s: seq<Gid>, t: seq<Gid>, gs: set<Gid>, i: nat)
    requires |s| == |t| && i < |s|
  {
    t[i] == s[i] || (s[i] !in gs && t[i] in gs)
  }

  lemma {:induction false} AllEnter(s: seq<Gid>, t: seq<Gid>, gs: set<Gid>)
    requires |s| == |t| && forall i :: 0 <= i < |s| ==> Enters(s, t, gs, i)
    ensures On(t, gs) == On(s, gs) + Moved(s, t)
  {
    if s != [] {
      var n := |s| - 1;
      assert Enters(s, t, gs, n);
      forall i | 0 <= i < n ensures Enters(s[..n], t[..n], gs, i) { assert Enters(s, t, gs, i); }
      AllEnter(s[..n], t[..n], gs);
    }
  }

  lemma {:induction false} OnParts(s: seq<Gid>, all: set<Gid>, part: set<Gid>)
    requires part <= all
    ensures On(s, all) == On(s, part) + On(s, all - part)
  {
    if s != [] { OnParts(s[..|s| - 1], all, part); }
  }

  lemma {:induction false} OnLive(s: seq<Gid>, groups: set<Gid>)
    requires Live(s, groups)
    ensures On(s, groups) == |s|
  {
    if s != [] { OnLive(s[..|s| - 1], groups); }
  }

  lemma LessSomewhere(s: seq<Gid>, t: seq<Gid>, gs: set<Gid>) returns (g: Gid)
    requires On(t, gs) < On(s, gs)
    ensures g in gs && Load(t, g) < Load(s, g)
  {
    if forall g :: g in gs ==> Load(s, g) <= Load(t, g) { OnMono(s, t, gs); }
    g :| g in gs && Load(t, g) < Load(s, g);
  }

  /** An assignment that moved fewer shards than a frugal one is not balanced. */
  lemma FewerIsUneven(s: seq<Gid>, r: seq<Gid>, t: seq<Gid>, groups: set<Gid>)
    requires Frugal(s, r, groups) && Live(r, groups) && |t| == |s| && Live(t, groups)
    requires Moved(s, t) < Moved(s, r)
    ensures !Balanced(t, groups)
  {
    var gained := set g | g in groups && Gained(s, r, g);
    var lost := set g | g in groups && Lost(s, r, g);
    var others := groups - lost;
    forall i | 0 <= i < |s| ensures Enters(s, r, gained, i) && Enters(s, r, others, i) {
      assert MoveOk(s, r, groups, i);
    }
    AllEnter(s, r, gained);
    EnteringMoved(s, t, gained);
    var e := LessSomewhere(r, t, gained);
    AllEnter(s, r, others);
    EnteringMoved(s, t, others);
    OnParts(r, groups, lost);
    OnParts(t, groups, lost);
    OnLive(r, groups);
    OnLive(t, groups);
    var d := LessSomewhere(t, r, lost);
    assert Load(r, e) <= Load(r, d);
  }

  /** From any assignment, no balanced assignment to the live groups moves fewer shards. */
  lemma RebalancedMovesFewest(s: seq<Gid>, groups: set<Gid>, t: seq<Gid>)
    requires groups != {} && |t| == |s| && Live(t, groups) && Balanced(t, groups)
    ensures |Rebalanced(s, groups)| == |s| && Moved(s, Rebalanced(s, groups)) <= Moved(s, t)
  {
    RebalancedBalances(s, groups);
    if Moved(s, t) < Moved(s, Rebalanced(s, groups)) {
      FewerIsUneven(s, Rebalanced(s, groups), t, groups);
    }
  }

  // ---------------------------------------------------------------- which shards move

  /** The first shard of the most loaded group is one that has always been there, and the earliest of those. */
  lemma MoveEarliest(s: seq<Gid>, t: seq<Gid>, groups: set<Gid>, p: nat, l: Gid)
    requires Frugal(s, t, groups) && EarliestLeft(s, t, groups) && Justified(s, t, groups, p, l)
    requires t[p] in groups ==> IsFirst(t, t[p], p)
    ensures EarliestLeft(s, t[p := l], groups)
  {
    var u := t[p := l];
    assert MoveOk(s, t, groups, p);
    forall i, j | 0 <= j < i < |s| && s[j] == s[i] && s[i] in groups && u[i] != s[i] ensures u[j] != s[j] {
      assert MoveOk(s, t, groups, i) && MoveOk(s, t, groups, j);
      if i == p { assert t[p] == s[p] ==> t[j] != t[p]; }
    }
  }

  lemma {:induction false} AdoptEarliest(s: seq<Gid>, t: seq<Gid>, groups: set<Gid>, i: nat)
    requires groups != {} && i <= |t| && Frugal(s, t, groups) && EarliestLeft(s, t, groups)
    requires forall d :: d in groups ==> !Lost(s, t, d)
    requires forall j :: 0 <= j < i ==> t[j] in groups
    ensures EarliestLeft(s, Adopt(t, groups, i), groups)
    decreases |t| - i
  {
    if i < |t| {
      var u := if t[i] in groups then t else t[i := Least(t, groups)];
      if t[i] !in groups {
        MoveFrugal(s, t, groups, i, Least(t, groups));
        MoveEarliest(s, t, groups, i, Least(t, groups));
      }
      AdoptEarliest(s, u, groups, i + 1);
    }
  }

  lemma {:induction false} SpreadEarliest(s: seq<Gid>, t: seq<Gid>, groups: set<Gid>)
    requires groups != {} && Frugal(s, t, groups) && EarliestLeft(s, t, groups)
    ensures EarliestLeft(s, Spread(t, groups), groups)
    decreases Pairs(t)
  {
    var m, l := Most(t, groups), Least(t, groups);
    assert IsMost(t, groups, m) && IsLeast(t, groups, l);
    if Load(t, m) >= Load(t, l) + 2 {
      var p := First(t, m);
      MoveLessens(t, p, l);
      MoveFrugal(s, t, groups, p, l);
      MoveEarliest(s, t, groups, p, l);
      SpreadEarliest(s, t[p := l], groups);
    }
  }

  /** A live group gives up its earliest shards. */
  lemma EarliestMove(s: seq<Gid>, groups: set<Gid>, i: nat, j: nat)
    requires groups != {} && j < i < |s| && s[j] == s[i] && s[i] in groups
    ensures |Rebalanced(s, groups)| == |s|
    ensures Rebalanced(s, groups)[i] != s[i] ==> Rebalanced(s, groups)[j] != s[j]
  {
    FrugalRefl(s, groups);
    AdoptFrugal(s, s, groups, 0);
    AdoptEarliest(s, s, groups, 0);
    SpreadEarliest(s, Adopt(s, groups, 0), groups);
  }
}
