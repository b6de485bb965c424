/** The configuration object of src/shardkv1/shardcfg/shardcfg.go, changed in place. */
module ShardConfigs {
  import opened Shards
  import opened Membership

  const NSHARDS := 12

  predicate Ordered(s: seq<Gid>) {
    forall i, j :: 0 <= i < j < |s| ==> s[i] <= s[j]
  }

  /** slices.Sort, by insertion. */
  function Insert(s: seq<Gid>, g: Gid): (r: seq<Gid>)
    ensures multiset(r) == multiset(s) + multiset{g}
  {
    if s == [] then [g]
    else if g <= s[0] then [g] + s
    else
      assert s == [s[0]] + s[1..];
      [s[0]] + Insert(s[1..], g)
  }

  lemma {:induction false} InsertOrdered(s: seq<Gid>, g: Gid)
    requires Ordered(s)
    ensures Ordered(Insert(s, g))
  {
    if s != [] && s[0] < g {
      var rest := Insert(s[1..], g);
      InsertOrdered(s[1..], g);
      forall i | 0 <= i < |rest| ensures s[0] <= rest[i] {
        assert rest[i] in multiset(rest);
        assert rest[i] in s[1..] || rest[i] == g;
      }
    }
  }

  function Sort(s: seq<Gid>): (r: seq<Gid>)
    ensures Ordered(r) && multiset(r) == multiset(s)
  {
    if s == [] then []
    else
      assert s == s[..|s| - 1] + [s[|s| - 1]];
      InsertOrdered(Sort(s[..|s| - 1]), s[|s| - 1]);
      Insert(Sort(s[..|s| - 1]), s[|s| - 1])
  }

  /** The extremes do not depend on the order in which groups are looked at. */
  lemma ExtremesUnique(s: seq<Gid>, groups: set<Gid>, m: Gid, l: Gid)
    requires IsMost(s, groups, m) && IsLeast(s, groups, l)
    ensures m == Most(s, groups) && l == Least(s, groups)
  {
  }

  lemma SameElements(s: seq<Gid>, t: seq<Gid>)
    requires multiset(s) == multiset(t)
    ensures forall g :: g in s <==> g in t
  {
    forall g ensures g in s <==> g in t {
      assert g in s <==> g in multiset(s);
      assert g in t <==> g in multiset(t);
    }
  }

  /** Looking at groups in ascending order, strict comparisons keep the smallest id among equals. */
  lemma ExtremesExtend(s: seq<Gid>, seen: set<Gid>, m: Gid, l: Gid, g: Gid)
    requires IsMost(s, seen, m) && IsLeast(s, seen, l) && forall h :: h in seen ==> h <= g
    ensures IsMost(s, seen + {g}, if Load(s, g) > Load(s, m) then g else m)
    ensures IsLeast(s, seen + {g}, if Load(s, g) < Load(s, l) then g else l)
  {
  }

  /** The scan over the sorted groups. */
  method Extremes(s: seq<Gid>, counts: map<Gid, int>, gids: seq<Gid>) returns (mg: Gid, mn: int, lg: Gid, ln: int)
    requires Ordered(gids) && |s| <= 256
    requires forall g :: (if g in counts then counts[g] else 0) == Load(s, g)
    ensures gids == [] ==> mn == -1 && mg == -1 && ln == 257 && lg == -1
    ensures gids != [] ==> IsMost(s, Elems(gids), mg) && mn == Load(s, mg)
    ensures gids != [] ==> IsLeast(s, Elems(gids), lg) && ln == Load(s, lg)
  {
    mn, mg, ln, lg := -1, -1, 257, -1;
    var i := 0;
    while i < |gids|
      invariant 0 <= i <= |gids|
      invariant i == 0 ==> mn == -1 && mg == -1 && ln == 257 && lg == -1
      invariant i > 0 ==> IsMost(s, Elems(gids[..i]), mg) && mn == Load(s, mg)
      invariant i > 0 ==> IsLeast(s, Elems(gids[..i]), lg) && ln == Load(s, lg)
    {
      var g := gids[i];
      var n := if g in counts then counts[g] else 0;
      OnAtMost(s, {g});
      ElemsExtend(gids, i);
      if i > 0 { ExtremesExtend(s, Elems(gids[..i]), mg, lg, g); }
      if n < ln { ln, lg := n, g; }
      if n > mn { mn, mg := n, g; }
      i := i + 1;
    }
    assert gids[..i] == gids;
  }

  lemma ElemsExtend(s: seq<Gid>, i: nat)
    requires i < |s|
    ensures Elems(s[..i + 1]) == Elems(s[..i]) + {s[i]}
  {
    SameSet(Elems(s[..i + 1]), Elems(s[..i]) + {s[i]});
  }

  class ShardConfig {
    var num: int
    const shards: array<Gid>
    var groups: Groups

    ghost predicate Valid()
      reads this
    {
      shards.Length == NSHARDS
    }

    constructor ()
      ensures Valid() && fresh(shards) && num == 0 && groups == map[]
      ensures shards[..] == seq(NSHARDS, i => 0)
    {
      num := 0;
      shards := new Gid[NSHARDS](i => 0);
      groups := map[];
    }

    /** How many shards each group carries. */
    method Counts() returns (counts: map<Gid, int>)
      requires Valid()
      ensures forall g :: (if g in counts then counts[g] else 0) == Load(shards[..], g)
    {
      counts := map[];
      var i := 0;
      while i < NSHARDS
        invariant 0 <= i <= NSHARDS
        invariant forall g :: (if g in counts then counts[g] else 0) == Load(shards[..i], g)
      {
        var g := shards[i];
        assert shards[..i + 1][..i] == shards[..i];
        counts := counts[g := (if g in counts then counts[g] else 0) + 1];
        i := i + 1;
      }
      assert shards[..NSHARDS] == shards[..];
    }

    /** The ids of the groups, in the order the map happens to yield them. */
    method Gids() returns (gids: seq<Gid>)
      ensures forall g :: g in gids <==> g in groups
    {
      gids := [];
      var todo := groups.Keys;
      while todo != {}
        invariant todo <= groups.Keys
        invariant forall g :: g in gids <==> g in groups.Keys - todo
        decreases |todo|
      {
        ghost var some := Pick(todo);
        var g :| g in todo;
        gids := gids + [g];
        todo := todo - {g};
      }
    }

    method Analyze() returns (mg: Gid, mn: int, lg: Gid, ln: int)
      requires Valid()
      ensures groups == map[] ==> mg == -1 && mn == -1 && lg == -1 && ln == 257
      ensures groups != map[] ==> mg == Most(shards[..], groups.Keys) && mn == Load(shards[..], mg)
      ensures groups != map[] ==> lg == Least(shards[..], groups.Keys) && ln == Load(shards[..], lg)
      ensures groups != map[] ==> mg in groups && lg in groups
      ensures forall g :: g in groups ==> ln <= Load(shards[..], g) <= mn
      ensures forall g :: g in groups && Load(shards[..], g) == mn ==> mg <= g
      ensures forall g :: g in groups && Load(shards[..], g) == ln ==> lg <= g
    {
      var counts := Counts();
      var unsorted := Gids();
      var gids := Sort(unsorted);
      SameElements(gids, unsorted);
      SameSet(Elems(gids), groups.Keys);
      mg, mn, lg, ln := Extremes(shards[..], counts, gids);
      if gids != [] {
        assert gids[0] in groups;
        ExtremesUnique(shards[..], groups.Keys, mg, lg);
      }
    }

    method LeastLoaded() returns (lg: Gid)
      requires Valid()
      ensures lg == if groups == map[] then -1 else Least(shards[..], groups.Keys)
    {
      var mg, mn, l, ln := Analyze();
      lg := l;
    }

    /** Every shard of a group that is gone goes to the least loaded group. */
    method AdoptOrphans()
      requires Valid() && groups != map[]
      modifies shards
      ensures shards[..] == Adopt(old(shards[..]), groups.Keys, 0)
    {
      var i := 0;
      while i < NSHARDS
        invariant 0 <= i <= NSHARDS
        invariant Adopt(shards[..], groups.Keys, i) == Adopt(old(shards[..]), groups.Keys, 0)
      {
        ghost var s := shards[..];
        if shards[i] !in groups {
          var lg := LeastLoaded();
          shards[i] := lg;
          assert shards[..] == s[i := lg];
        }
        i := i + 1;
      }
    }

    /** The first shard of group mg goes to group lg. */
    method MoveFirst(mg: Gid, lg: Gid)
      requires Valid() && Load(shards[..], mg) > 0
      modifies shards
      ensures shards[..] == old(shards[..])[First(old(shards[..]), mg) := lg]
    {
      ghost var s := shards[..];
      ghost var p := First(s, mg);
      var i := 0;
      while i < NSHARDS && shards[i] != mg
        invariant 0 <= i <= p < NSHARDS
        invariant shards[..] == s
      {
        assert s[i] != mg;
        i := i + 1;
      }
      assert s[i] == mg;
      shards[i] := lg;
      assert shards[..] == s[i := lg];
    }

    /** Terminates because each move leaves fewer pairs of shards in one group. */
    method Rebalance()
      requires Valid()
      modifies shards
      ensures shards[..] == Rebalanced(old(shards[..]), groups.Keys)
      ensures groups == map[] ==> forall i :: 0 <= i < NSHARDS ==> shards[i] == 0
    {
      if |groups| < 1 {
        var i := 0;
        while i < NSHARDS
          invariant 0 <= i <= NSHARDS
          invariant forall j :: 0 <= j < i ==> shards[j] == 0
        {
          shards[i] := 0;
          i := i + 1;
        }
        assert shards[..] == seq(NSHARDS, j => 0);
        return;
      }
      AdoptOrphans();
      var mg, mn, lg, ln := Analyze();
      while mn >= ln + 2
        invariant Spread(shards[..], groups.Keys) == Rebalanced(old(shards[..]), groups.Keys)
        invariant mg == Most(shards[..], groups.Keys) && mn == Load(shards[..], mg)
        invariant lg == Least(shards[..], groups.Keys) && ln == Load(shards[..], lg)
        decreases Pairs(shards[..])
      {
        MoveLessens(shards[..], First(shards[..], mg), lg);
        MoveFirst(mg, lg);
        mg, mn, lg, ln := Analyze();
      }
    }

    /** Does the new group share a server with a group already there? */
    method Clashes(gid: Gid, servers: seq<string>) returns (clash: bool)
      requires gid !in groups
      ensures clash <==> !Exclusive(groups[gid := servers], gid)
    {
      ghost var all := groups[gid := servers];
      var todo := groups.Keys;
      while todo != {}
        invariant todo <= groups.Keys
        invariant forall g :: g in groups.Keys - todo ==> NoneShared(groups[g], servers)
        decreases |todo|
      {
        ghost var some := Pick(todo);
        var x :| x in todo;
        if !NoneShared(groups[x], servers) {
          assert !NoneShared(all[x], all[gid]);
          return true;
        }
        todo := todo - {x};
      }
      return false;
    }

    /** One more group joins, unless it is present (false) or shares a server with one that is (Fatal). */
    method JoinOne(gid: Gid, servers: seq<string>) returns (r: Outcome)
      modifies this`groups
      ensures r == Done(false) <==> gid in old(groups)
      ensures r == Fatal <==> gid !in old(groups) && !Exclusive(old(groups)[gid := servers], gid)
      ensures groups == if r == Done(true) then old(groups)[gid := servers] else old(groups)
    {
      if gid in groups {
        return Done(false);
      }
      var clash := Clashes(gid, servers);
      if clash {
        return Fatal;
      }
      groups := groups[gid := servers];
      return Done(true);
    }

    /** Takes the groups in the map's order until one cannot join. */
    method JoinEach(servers: Groups) returns (r: Outcome, ghost order: seq<Gid>)
      modifies this`groups
      ensures IsOrder(order, servers.Keys) && (r, groups) == JoinIn(old(groups), servers, order)
    {
      var todo := servers.Keys;
      r, order := Done(true), [];
      while todo != {} && r == Done(true)
        invariant todo <= servers.Keys && IsOrder(order, servers.Keys - todo)
        invariant (r, groups) == JoinIn(old(groups), servers, order)
        decreases |todo|
      {
        ghost var some := Pick(todo);
        var gid :| gid in todo;
        JoinSnoc(old(groups), servers, order, gid);
        OrderMore(order, servers.Keys, todo, gid);
        order := order + [gid];
        todo := todo - {gid};
        r := JoinOne(gid, servers[gid]);
      }
      ghost var rest := Listing(todo);
      OrderWhole(order, servers.Keys, todo, rest);
      if r != Done(true) {
        JoinHalts(old(groups), servers, order, rest);
      } else {
        OrderEmpty(rest, todo);
        assert order + rest == order;
      }
      order := order + rest;
    }

    /** Joins all the groups; if one cannot, those taken before it, in the order of the map, stay joined. */
    method Join(servers: Groups) returns (r: Outcome, ghost order: seq<Gid>)
      modifies this`num, this`groups
      ensures IsOrder(order, servers.Keys) && (r, groups) == JoinAs(old(groups), servers, order)
      ensures r == Done(true) <==> CanJoin(old(groups), servers)
      ensures r == Done(true) ==> groups == old(groups) + servers
      ensures servers.Keys == {} ==> r == Fatal
      ensures r == Done(false) ==> !(servers.Keys !! old(groups).Keys)
      ensures num == if r == Done(true) then old(num) + 1 else old(num)
    {
      r, order := JoinEach(servers);
      JoinSucceeds(old(groups), servers, order);
      OrderEmpty(order, servers.Keys);
      if r == Done(true) {
        if |servers| == 0 {
          return Fatal, order;
        }
        num := num + 1;
      }
    }

    /** Removes the groups in turn, or stops at the first that is not there. */
    method Leave(gids: seq<Gid>) returns (r: Outcome)
      modifies this`num, this`groups
      ensures (r, groups) == LeaveAs(old(groups), gids)
      ensures r == Done(true) <==> gids != [] && CanLeave(old(groups), gids)
      ensures r == Done(true) ==> groups == old(groups) - Elems(gids)
      ensures r == Fatal <==> gids == []
      ensures num == if r == Done(true) then old(num) + 1 else old(num)
    {
      ghost var k := LeaveRemoves(groups, gids);
      assert k == |gids| ==> gids[..k] == gids;
      var changed := false;
      var i := 0;
      while i < |gids|
        invariant 0 <= i <= |gids|
        invariant LeaveIn(groups, gids[i..]) == LeaveIn(old(groups), gids)
        invariant num == old(num)
        invariant changed <==> i > 0
      {
        if gids[i] !in groups {
          assert LeaveIn(groups, gids[i..]) == (Done(false), groups);
          CannotLeave(old(groups), gids, k);
          return Done(false);
        }
        groups := groups - {gids[i]};
        assert gids[i..][1..] == gids[i + 1..];
        changed := true;
        i := i + 1;
      }
      assert gids[i..] == [];
      if !changed {
        return Fatal;
      }
      num := num + 1;
      return Done(true);
    }

    /** The shards stand on live groups with loads within one of each other. */
    ghost predicate Even()
      reads this, shards
    {
      Live(shards[..], groups.Keys) && Balanced(shards[..], groups.Keys)
    }

    /** From an even configuration, shards move only to the groups that join. */
    method JoinBalance(servers: Groups) returns (r: Outcome, ghost order: seq<Gid>)
      requires Valid()
      modifies this`num, this`groups, shards
      ensures r == Done(true) ==> groups == old(groups) + servers && num == old(num) + 1 && Even()
                                  && shards[..] == Rebalanced(old(shards[..]), groups.Keys)
      ensures r == Done(true) && (old(Even()) || old(groups) == map[]) ==>
                forall i :: 0 <= i < NSHARDS ==> shards[i] == old(shards[i]) || shards[i] in servers
      ensures IsOrder(order, servers.Keys) && (r, groups) == JoinAs(old(groups), servers, order)
      ensures r == Done(true) <==> CanJoin(old(groups), servers)
      ensures r != Done(true) ==> shards[..] == old(shards[..]) && num == old(num)
    {
      ghost var s, keys := shards[..], groups.Keys;
      r, order := Join(servers);
      if r == Done(true) {
        Rebalance();
        JoinEffect(s, keys, servers.Keys, shards[..]);
        assert groups.Keys == keys + servers.Keys;
      }
    }

    /** From an even configuration, just the shards of the groups that leave move. */
    method LeaveBalance(gids: seq<Gid>) returns (r: Outcome)
      requires Valid()
      modifies this`num, this`groups, shards
      ensures r == Done(true) ==> groups == old(groups) - Elems(gids) && num == old(num) + 1
                                  && (groups != map[] ==> Even())
                                  && shards[..] == Rebalanced(old(shards[..]), groups.Keys)
      ensures r == Done(true) && old(Even()) && groups != map[] ==>
                forall i :: 0 <= i < NSHARDS ==> (shards[i] == old(shards[i]) <==> old(shards[i]) !in gids)
      ensures r == Done(true) && groups == map[] ==> forall i :: 0 <= i < NSHARDS ==> shards[i] == 0
      ensures (r, groups) == LeaveAs(old(groups), gids)
      ensures r == Done(true) <==> gids != [] && CanLeave(old(groups), gids)
      ensures r != Done(true) ==> shards[..] == old(shards[..]) && num == old(num)
    {
      ghost var s, keys := shards[..], groups.Keys;
      r := Leave(gids);
      if r == Done(true) {
        Rebalance();
        LeaveEffect(s, keys, groups.Keys, shards[..]);
      }
    }
  }

  lemma JoinEffect(s: seq<Gid>, groups: set<Gid>, joining: set<Gid>, t: seq<Gid>)
    requires joining != {} && groups !! joining && t == Rebalanced(s, groups + joining)
    ensures |t| == |s| && Live(t, groups + joining) && Balanced(t, groups + joining)
    ensures groups == {} || (Live(s, groups) && Balanced(s, groups)) ==>
              forall i :: 0 <= i < |s| ==> t[i] == s[i] || t[i] in joining
  {
    RebalancedBalances(s, groups + joining);
    if groups == {} || (Live(s, groups) && Balanced(s, groups)) {
      forall i | 0 <= i < |s| ensures t[i] == s[i] || t[i] in joining { JoinMovesToNew(s, groups, joining, i); }
    }
  }

  lemma LeaveEffect(s: seq<Gid>, groups: set<Gid>, staying: set<Gid>, t: seq<Gid>)
    requires staying <= groups && t == Rebalanced(s, staying)
    ensures |t| == |s| && (staying != {} ==> Live(t, staying) && Balanced(t, staying))
    ensures staying != {} && Live(s, groups) && Balanced(s, groups) ==>
              forall i :: 0 <= i < |s| ==> (t[i] == s[i] <==> s[i] in staying)
  {
    RebalancedBalances(s, staying);
    if staying != {} && Live(s, groups) && Balanced(s, groups) {
      forall i | 0 <= i < |s| ensures t[i] == s[i] <==> s[i] in staying { LeaveMovesOrphans(s, groups, staying, i); }
    }
  }
}
