/** How groups join and leave a configuration, on values: src/shardkv1/shardcfg/shardcfg.go. */
module Membership {
  import opened Shards

  /** What a Join or Leave ends in; Fatal is log.Fatalf. */
  datatype Outcome = Done(ok: bool) | Fatal

  type Groups = map<Gid, seq<string>>

  function Elems(s: seq<Gid>): set<Gid> {
    set g | g in s
  }

  lemma SameSet<T>(a: set<T>, b: set<T>)
    requires forall x :: x in a <==> x in b
    ensures a == b
  {
  }

  predicate NoneShared(xs: seq<string>, ys: seq<string>) {
    forall i, j :: 0 <= i < |xs| && 0 <= j < |ys| ==> xs[i] != ys[j]
  }

  /** No other group has a server of group h. */
  predicate Exclusive(groups: Groups, h: Gid) {
    h in groups && forall g :: g in groups && g != h ==> NoneShared(groups[g], groups[h])
  }

  lemma ExclusiveExtends(groups: Groups, gid: Gid, servers: seq<string>, done: set<Gid>)
    requires gid !in groups && Exclusive(groups[gid := servers], gid)
    requires forall h :: h in done ==> Exclusive(groups, h)
    ensures forall h :: h in done + {gid} ==> Exclusive(groups[gid := servers], h)
  {
    var all := groups[gid := servers];
    forall h, g | h in done && g in all && g != h ensures NoneShared(all[g], all[h]) {
      assert Exclusive(groups, h);
      if g == gid {
        assert NoneShared(all[h], all[gid]);
      } else {
        assert NoneShared(groups[g], groups[h]);
      }
    }
  }

  /** The groups after some of `servers` have joined. */
  function Adding(before: Groups, servers: Groups, joined: set<Gid>): Groups
    requires joined <= servers.Keys
  {
    before + (map g | g in joined :: servers[g])
  }

  lemma AddOne(before: Groups, servers: Groups, joined: set<Gid>, gid: Gid)
    requires joined <= servers.Keys && gid in servers
    ensures Adding(before, servers, joined + {gid}) == Adding(before, servers, joined)[gid := servers[gid]]
  {
  }

  lemma AddAll(before: Groups, servers: Groups)
    ensures Adding(before, servers, servers.Keys) == before + servers
  {
    assert (map g | g in servers.Keys :: servers[g]) == servers;
  }

  /** A Join succeeds: there are groups to join, all new, and none has a server of another group. */
  ghost predicate CanJoin(before: Groups, servers: Groups) {
    && servers.Keys != {} && servers.Keys !! before.Keys
    && forall h :: h in servers ==> Exclusive(before + servers, h)
  }

  /** Join on its way: all but `todo` are in, and none of them clashes. */
  ghost predicate Joining(before: Groups, servers: Groups, todo: set<Gid>, groups: Groups) {
    && todo <= servers.Keys
    && PartlyJoined(before, servers, servers.Keys - todo, groups)
    && forall h :: h in servers.Keys - todo ==> Exclusive(groups, h)
  }

  ghost predicate PartlyJoined(before: Groups, servers: Groups, joined: set<Gid>, groups: Groups) {
    joined <= servers.Keys && joined !! before.Keys && groups == Adding(before, servers, joined)
  }

  lemma JoinGoesOn(before: Groups, servers: Groups, todo: set<Gid>, groups: Groups, gid: Gid)
    requires Joining(before, servers, todo, groups) && gid in todo
    requires gid !in groups && Exclusive(groups[gid := servers[gid]], gid)
    ensures Joining(before, servers, todo - {gid}, groups[gid := servers[gid]])
    ensures todo - {gid} != servers.Keys
  {
    var joined := servers.Keys - todo;
    assert joined + {gid} == servers.Keys - (todo - {gid});
    ExclusiveExtends(groups, gid, servers[gid], joined);
    AddOne(before, servers, joined, gid);
  }

  lemma JoinStops(before: Groups, servers: Groups, todo: set<Gid>, groups: Groups, gid: Gid)
    requires Joining(before, servers, todo, groups) && gid in todo
    requires gid in groups || !Exclusive(groups[gid := servers[gid]], gid)
    ensures !CanJoin(before, servers) && (gid in groups ==> !(servers.Keys !! before.Keys))
  {
    if gid in groups {
      assert gid in before;
    } else {
      ClashStays(groups, before, servers, servers.Keys - todo, gid);
    }
  }

  lemma JoinEnds(before: Groups, servers: Groups, groups: Groups)
    requires Joining(before, servers, {}, groups)
    ensures groups == before + servers && (CanJoin(before, servers) <==> servers.Keys != {})
  {
    assert servers.Keys - {} == servers.Keys;
    AddAll(before, servers);
  }

  /** A clash met on the way is one of the whole. */
  lemma ClashStays(groups: Groups, before: Groups, servers: Groups, joined: set<Gid>, gid: Gid)
    requires joined <= servers.Keys && groups == Adding(before, servers, joined)
    requires gid in servers && gid !in groups && !Exclusive(groups[gid := servers[gid]], gid)
    ensures !CanJoin(before, servers)
  {
    var part, all := groups[gid := servers[gid]], before + servers;
    var g :| g in part && g != gid && !NoneShared(part[g], part[gid]);
    assert g in all && all[gid] == part[gid] && (servers.Keys !! before.Keys ==> all[g] == part[g]);
  }

  /** A Join can succeed exactly if it names groups, none is present, and no server would be in two groups because of it. */
  lemma CanJoinMeans(before: Groups, servers: Groups)
    ensures CanJoin(before, servers) <==>
              && servers.Keys != {}
              && (forall h :: h in servers ==> h !in before)
              && forall g, h, x :: h in servers && g in before + servers && g != h && x in servers[h] ==> x !in (before + servers)[g]
  {
    var all := before + servers;
    if CanJoin(before, servers) {
      forall g, h, x | h in servers && g in all && g != h && x in servers[h] ensures x !in all[g] {
        assert Exclusive(all, h) && NoneShared(all[g], all[h]);
      }
    }
    if (forall g, h, x :: h in servers && g in all && g != h && x in servers[h] ==> x !in all[g]) {
      forall h | h in servers ensures Exclusive(all, h) {
        forall g | g in all && g != h ensures NoneShared(all[g], all[h]) {
          assert forall i, j :: 0 <= i < |all[g]| && 0 <= j < |all[h]| ==> all[g][i] in all[g] && all[h][j] in all[h];
        }
      }
    }
  }

  // ---------------------------------------------------------------- Join, in a given order

  /** The order lists each of the keys once. */
  ghost predicate IsOrder(order: seq<Gid>, keys: set<Gid>) {
    && (forall g :: g in order <==> g in keys)
    && (forall i, j :: 0 <= i < j < |order| ==> order[i] != order[j])
  }

  /** Join's loop, if the map yields the groups in this order: it stops at the first that cannot join. */
  function JoinIn(groups: Groups, servers: Groups, order: seq<Gid>): (Outcome, Groups)
    requires forall g :: g in order ==> g in servers
    decreases |order|
  {
    if order == [] then (Done(true), groups)
    else
      var gid := order[0];
      if gid in groups then (Done(false), groups)
      else if !Exclusive(groups[gid := servers[gid]], gid) then (Fatal, groups)
      else JoinIn(groups[gid := servers[gid]], servers, order[1..])
  }

  /** Join as a whole: without groups to join it is fatal. */
  function JoinAs(groups: Groups, servers: Groups, order: seq<Gid>): (Outcome, Groups)
    requires forall g :: g in order ==> g in servers
  {
    if order == [] then (Fatal, groups) else JoinIn(groups, servers, order)
  }

  lemma {:induction false} JoinSnoc(groups: Groups, servers: Groups, taken: seq<Gid>, gid: Gid)
    requires (forall g :: g in taken ==> g in servers) && gid in servers
    requires JoinIn(groups, servers, taken).0 == Done(true)
    ensures JoinIn(groups, servers, taken + [gid]) == JoinIn(JoinIn(groups, servers, taken).1, servers, [gid])
    decreases |taken|
  {
    if taken != [] {
      assert (taken + [gid])[1..] == taken[1..] + [gid];
      JoinSnoc(groups[taken[0] := servers[taken[0]]], servers, taken[1..], gid);
    } else {
      assert taken + [gid] == [gid];
    }
  }

  lemma {:induction false} JoinHalts(groups: Groups, servers: Groups, taken: seq<Gid>, rest: seq<Gid>)
    requires forall g :: g in taken + rest ==> g in servers
    requires JoinIn(groups, servers, taken).0 != Done(true)
    ensures JoinIn(groups, servers, taken + rest) == JoinIn(groups, servers, taken)
    decreases |taken|
  {
    var gid := taken[0];
    assert (taken + rest)[1..] == taken[1..] + rest;
    if gid !in groups && Exclusive(groups[gid := servers[gid]], gid) {
      JoinHalts(groups[gid := servers[gid]], servers, taken[1..], rest);
    }
  }

  lemma {:induction false} JoinFrom(before: Groups, servers: Groups, todo: set<Gid>, groups: Groups, order: seq<Gid>)
    requires Joining(before, servers, todo, groups) && IsOrder(order, todo)
    ensures var (r, after) := JoinIn(groups, servers, order);
            if r == Done(true) then Joining(before, servers, {}, after)
            else !CanJoin(before, servers) && (r == Done(false) ==> !(servers.Keys !! before.Keys))
    decreases |order|
  {
    if order == [] {
      OrderNone(todo);
    } else {
      assert order[0] in order;
      var gid := order[0];
      if gid in groups || !Exclusive(groups[gid := servers[gid]], gid) {
        JoinStops(before, servers, todo, groups, gid);
      } else {
        JoinGoesOn(before, servers, todo, groups, gid);
        OrderTail(order, todo);
        JoinFrom(before, servers, todo - {gid}, groups[gid := servers[gid]], order[1..]);
      }
    }
  }

  lemma OrderNone(keys: set<Gid>)
    requires IsOrder([], keys)
    ensures keys == {}
  {
    forall g ensures g in keys <==> g in {} { assert g in [] <==> g in keys; }
    SameSet(keys, {});
  }

  /** Orders of disjoint sets make an order of their union. */
  lemma OrderJoin(a: seq<Gid>, ks: set<Gid>, b: seq<Gid>, ls: set<Gid>)
    requires IsOrder(a, ks) && IsOrder(b, ls) && ks !! ls
    ensures IsOrder(a + b, ks + ls)
  {
    var ab := a + b;
    forall g ensures g in ab <==> g in ks + ls {
      assert (g in a <==> g in ks) && (g in b <==> g in ls);
    }
    forall i, j | 0 <= i < j < |ab| ensures ab[i] != ab[j] {
      assert (i < |a| ==> ab[i] in a) && (j >= |a| ==> ab[j] in b);
    }
  }

  /** What is taken from `todo` comes next in the order of what is done. */
  lemma OrderMore(order: seq<Gid>, keys: set<Gid>, todo: set<Gid>, gid: Gid)
    requires todo <= keys && IsOrder(order, keys - todo) && gid in todo
    ensures IsOrder(order + [gid], keys - (todo - {gid}))
  {
    assert IsOrder([gid], {gid});
    OrderJoin(order, keys - todo, [gid], {gid});
    assert keys - todo + {gid} == keys - (todo - {gid});
  }

  lemma OrderWhole(order: seq<Gid>, keys: set<Gid>, todo: set<Gid>, rest: seq<Gid>)
    requires todo <= keys && IsOrder(order, keys - todo) && IsOrder(rest, todo)
    ensures IsOrder(order + rest, keys)
  {
    OrderJoin(order, keys - todo, rest, todo);
    assert keys - todo + todo == keys;
  }

  lemma OrderEmpty(order: seq<Gid>, keys: set<Gid>)
    requires IsOrder(order, keys)
    ensures order == [] <==> keys == {}
  {
    if order == [] { OrderNone(keys); } else { assert order[0] in order; }
  }

  lemma OrderTail(order: seq<Gid>, todo: set<Gid>)
    requires IsOrder(order, todo) && order != []
    ensures order[0] in todo && IsOrder(order[1..], todo - {order[0]})
  {
    assert order[0] in order;
    forall g ensures g in order[1..] <==> g in todo - {order[0]} {
      assert g in order <==> g == order[0] || g in order[1..];
    }
  }

  /** Whether a Join succeeds does not depend on the order, and what a successful one leaves neither. */
  lemma JoinSucceeds(before: Groups, servers: Groups, order: seq<Gid>)
    requires IsOrder(order, servers.Keys)
    ensures var (r, after) := JoinAs(before, servers, order);
            && (r == Done(true) <==> CanJoin(before, servers))
            && (r == Done(true) ==> after == before + servers)
            && (r == Done(false) ==> !(servers.Keys !! before.Keys))
  {
    assert Adding(before, servers, {}) == before;
    assert servers.Keys - servers.Keys == {};
    assert Joining(before, servers, servers.Keys, before);
    JoinFrom(before, servers, servers.Keys, before, order);
    var (r, after) := JoinIn(before, servers, order);
    if order == [] { OrderNone(servers.Keys); } else { assert order[0] in order; }
    if r == Done(true) { JoinEnds(before, servers, after); }
  }

  // ---------------------------------------------------------------- a refused Join

  lemma {:induction false} JoinKeeps(groups: Groups, servers: Groups, order: seq<Gid>)
    requires forall g :: g in order ==> g in servers
    ensures forall g :: g in groups ==> g in JoinIn(groups, servers, order).1
    decreases |order|
  {
    if order != [] {
      var gid := order[0];
      assert gid in order;
      if gid !in groups && Exclusive(groups[gid := servers[gid]], gid) {
        JoinKeeps(groups[gid := servers[gid]], servers, order[1..]);
      }
    }
  }

  lemma {:induction false} Listing(keys: set<Gid>) returns (order: seq<Gid>)
    ensures IsOrder(order, keys)
    decreases |keys|
  {
    if keys == {} {
      order := [];
    } else {
      var g := Pick(keys);
      var rest := Listing(keys - {g});
      order := [g] + rest;
    }
  }

  /** A group that could join on its own. */
  ghost predicate Joinable(before: Groups, servers: Groups, h: Gid) {
    h in servers && h !in before && Exclusive(before[h := servers[h]], h)
  }

  ghost predicate Harmless(before: Groups, servers: Groups, order: seq<Gid>) {
    IsOrder(order, servers.Keys) ==> JoinAs(before, servers, order).1 == before
  }

  /**
   A refused Join leaves the groups as they were, in whatever order the map yields, if and only if none
   of the groups to join could have joined on its own.
   */
  lemma RefusedJoin(before: Groups, servers: Groups)
    requires !CanJoin(before, servers)
    ensures (forall order :: Harmless(before, servers, order)) <==> (forall h :: !Joinable(before, servers, h))
  {
    if h :| Joinable(before, servers, h) {
      var rest := Listing(servers.Keys - {h});
      var order := [h] + rest;
      assert IsOrder([h], {h});
      OrderJoin([h], {h}, rest, servers.Keys - {h});
      assert {h} + (servers.Keys - {h}) == servers.Keys;
      JoinKeeps(before[h := servers[h]], servers, rest);
      assert order[1..] == rest;
      assert !Harmless(before, servers, order);
    } else {
      forall order ensures Harmless(before, servers, order) {
        assert order != [] ==> !Joinable(before, servers, order[0]);
      }
    }
  }

  /** What a refused Join leaves depends on the order: here 1 is present, and 2 could join. */
  lemma OrderMatters() returns (before: Groups, servers: Groups, a: seq<Gid>, b: seq<Gid>)
    ensures IsOrder(a, servers.Keys) && IsOrder(b, servers.Keys)
    ensures JoinAs(before, servers, a) == (Done(false), before)
    ensures JoinAs(before, servers, b).0 == Done(false) && JoinAs(before, servers, b).1 != before
  {
    before, servers := map[1 := ["x"]], map[1 := ["y"], 2 := ["z"]];
    a, b := [1, 2], [2, 1];
    var more := before[2 := ["z"]];
    assert NoneShared(more[1], more[2]);
    assert Exclusive(more, 2);
    assert b[1..] == [1];
    assert JoinIn(more, servers, [1]) == (Done(false), more);
    assert 2 in more && 2 !in before;
  }

  // ---------------------------------------------------------------- Leave

  /** Leave's loop: it stops at the first group that is not there, or no longer. */
  function LeaveIn(groups: Groups, gids: seq<Gid>): (Outcome, Groups) {
    if gids == [] then (Done(true), groups)
    else if gids[0] !in groups then (Done(false), groups)
    else LeaveIn(groups - {gids[0]}, gids[1..])
  }

  function LeaveAs(groups: Groups, gids: seq<Gid>): (Outcome, Groups) {
    if gids == [] then (Fatal, groups) else LeaveIn(groups, gids)
  }

  /** The groups can leave in turn: each is there, and none is named twice. */
  ghost predicate CanLeave(groups: Groups, gids: seq<Gid>) {
    && (forall i :: 0 <= i < |gids| ==> gids[i] in groups)
    && (forall i, j :: 0 <= i < j < |gids| ==> gids[i] != gids[j])
  }

  /** Leave removes the groups before the first that cannot leave: all of them, or up to a place k. */
  lemma {:induction false} LeaveRemoves(groups: Groups, gids: seq<Gid>) returns (k: nat)
    ensures k <= |gids| && LeaveIn(groups, gids).1 == groups - Elems(gids[..k]) && CanLeave(groups, gids[..k])
    ensures if LeaveIn(groups, gids).0 == Done(true) then k == |gids|
            else LeaveIn(groups, gids).0 == Done(false) && k < |gids| && !CanLeave(groups, gids[..k + 1])
  {
    if gids == [] {
      k := 0;
      assert Elems([]) == {};
    } else if gids[0] !in groups {
      k := 0;
      assert Elems(gids[..0]) == {};
      assert gids[..1][0] !in groups;
    } else {
      var rest := groups - {gids[0]};
      var m := LeaveRemoves(rest, gids[1..]);
      k := m + 1;
      LeaveOneMore(groups, gids, m);
      if m < |gids| - 1 { LeaveOneMore(groups, gids, m + 1); }
    }
  }

  lemma LeaveOneMore(groups: Groups, gids: seq<Gid>, m: nat)
    requires m < |gids| && gids[0] in groups
    ensures groups - {gids[0]} - Elems(gids[1..][..m]) == groups - Elems(gids[..m + 1])
    ensures CanLeave(groups - {gids[0]}, gids[1..][..m]) <==> CanLeave(groups, gids[..m + 1])
  {
    var front, back := gids[..m + 1], gids[1..][..m];
    assert front == [gids[0]] + back;
    SameSet(Elems(front), {gids[0]} + Elems(back));
    if CanLeave(groups, front) {
      forall i | 0 <= i < m ensures back[i] in groups - {gids[0]} { assert back[i] == front[i + 1]; }
      forall i, j | 0 <= i < j < m ensures back[i] != back[j] { assert back[i] == front[i + 1] && back[j] == front[j + 1]; }
    }
    if CanLeave(groups - {gids[0]}, back) {
      forall i | 0 <= i <= m ensures front[i] in groups { assert i > 0 ==> front[i] == back[i - 1]; }
      forall i, j | 0 <= i < j <= m ensures front[i] != front[j] {
        assert front[j] == back[j - 1] && (i > 0 ==> front[i] == back[i - 1]);
      }
    }
  }

  /** A refused Leave leaves the groups as they were if and only if it names none, or first one not there. */
  lemma RefusedLeave(groups: Groups, gids: seq<Gid>)
    requires LeaveAs(groups, gids).0 != Done(true)
    ensures LeaveAs(groups, gids).1 == groups <==> gids == [] || gids[0] !in groups
  {
    if gids != [] && gids[0] in groups {
      var k := LeaveRemoves(groups, gids);
      assert k > 0 ==> gids[..k][0] == gids[0];
      assert CanLeave(groups, gids[..1]);
      assert gids[0] !in LeaveIn(groups, gids).1;
    }
  }

  lemma CannotLeave(groups: Groups, gids: seq<Gid>, k: nat)
    requires k < |gids| && !CanLeave(groups, gids[..k + 1])
    ensures !CanLeave(groups, gids)
  {
    if CanLeave(groups, gids) {
      var front := gids[..k + 1];
      assert forall i :: 0 <= i < |front| ==> front[i] == gids[i];
      assert CanLeave(groups, front);
    }
  }
}
