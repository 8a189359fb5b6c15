// For a resource arbitrated through lists, what one step does to the agreement
// of the register and the last callback with the lists of one instance: the head
// of the highest priority non-empty list is in force, the default if there is
// none. Global resources, of one instance, are always so.

module Arbitration {
  import opened Types
  import opened ListOrder
  import opened CocoSpec
  import opened LiveSet

  lemma FirstLevelIs(t: Table, row: int, base: int, r: int)
    requires r == -1 || Level(r)
    requires r != -1 ==> LevelList(t, row, base, r) != []
    requires forall q :: 0 <= q < (if r == -1 then TOTAL_PRIORITIES else r) ==> LevelList(t, row, base, q) == []
    ensures FirstLevel(t, row, base, 0) == r
  {
    var p := FirstLevel(t, row, base, 0);
    assert p != -1 ==> LevelList(t, row, base, p) != [];
  }

  lemma InForceLast(log: seq<Callback>, c: Callback, row: int)
    ensures InForce(log + [c], row)
         == if c.row != row then InForce(log, row) else if c.Apply? then Some(c.item) else None
  {
    assert (log + [c])[..|log|] == log;
  }

  // u differs from t in nothing that concerns the row.
  ghost predicate SameRow(t: Table, u: Table, row: int, base: int) {
    && |u.applied| == |t.applied|
    && (0 <= row < |t.applied| ==> u.applied[row] == t.applied[row])
    && (forall q :: Level(q) ==> LevelList(u, row, base, q) == LevelList(t, row, base, q))
    && InForce(u.log, row) == InForce(t.log, row)
  }

  lemma SameRowArbitrated(t: Table, u: Table, row: int, base: int)
    requires Arbitrated(t, row, base) && SameRow(t, u, row, base)
    ensures Arbitrated(u, row, base)
  {
    FirstLevelIs(u, row, base, FirstLevel(t, row, base, 0));
  }

  // At most one more callback, and of that row.
  ghost predicate Grew(log: seq<Callback>, more: seq<Callback>, row: int) {
    more == log || (|more| == |log| + 1 && more[..|log|] == log && more[|log|].row == row)
  }

  lemma GrewElsewhere(log: seq<Callback>, more: seq<Callback>, other: int, row: int)
    requires Grew(log, more, other) && row != other
    ensures InForce(more, row) == InForce(log, row)
  {
    if more != log {
      assert more == log + [more[|log|]];
      InForceLast(log, more[|log|], row);
    }
  }

  // A step on another resource leaves this of the row.
  ghost predicate Spared(t: Table, u: Table, other: int, row: int, base: int) {
    && |u.applied| == |t.applied| && Grew(t.log, u.log, other)
    && (0 <= row < |t.applied| ==> u.applied[row] == t.applied[row])
    && (forall q :: Level(q) ==> LevelList(u, row, base, q) == LevelList(t, row, base, q))
  }

  lemma {:induction false} InsertSpares(ctx: Ctx, mode: Mode, t: Table, item: Item, prio: int, s: Slot, row: int,
                                        base: int)
    requires Shape(ctx, t) && Target(ctx, item.res, prio) == Some(s) && s.row != row
    ensures Spared(t, InsertOne(ctx, mode, t, item, prio), s.row, row, base)
  {
  }

  lemma {:induction false} RemoveSpares(ctx: Ctx, mode: Mode, t: Table, item: Item, prio: int, s: Slot, row: int,
                                        base: int)
    requires Shape(ctx, t) && Target(ctx, item.res, prio) == Some(s) && s.row != row
    ensures Spared(t, RemoveOne(ctx, mode, t, item, prio), s.row, row, base)
  {
  }

  lemma SparedArbitrated(t: Table, u: Table, other: int, row: int, base: int)
    requires Spared(t, u, other, row, base) && row != other && Arbitrated(t, row, base)
    ensures Arbitrated(u, row, base)
  {
    GrewElsewhere(t.log, u.log, other, row);
    SameRowArbitrated(t, u, row, base);
  }

  // A step on one resource says nothing about another.
  lemma {:induction false} OtherRows(ctx: Ctx, mode: Mode, t: Table, item: Item, prio: int, row: int, base: int)
    requires Shape(ctx, t) && Arbitrated(t, row, base)
    requires var s := Target(ctx, item.res, prio); s == None || s.value.row != row
    ensures Arbitrated(InsertOne(ctx, mode, t, item, prio), row, base)
    ensures Arbitrated(RemoveOne(ctx, mode, t, item, prio), row, base)
  {
    var s := Target(ctx, item.res, prio);
    if s.Some? {
      InsertSpares(ctx, mode, t, item, prio, s.value, row, base);
      SparedArbitrated(t, InsertOne(ctx, mode, t, item, prio), s.value.row, row, base);
      RemoveSpares(ctx, mode, t, item, prio, s.value, row, base);
      SparedArbitrated(t, RemoveOne(ctx, mode, t, item, prio), s.value.row, row, base);
    }
  }

  // Would the new entry be the one to apply?
  ghost predicate Wins(ctx: Ctx, t: Table, item: Item, prio: int, row: int, base: int)
    requires Shape(ctx, t) && Managed(ctx, row)
  {
    && (FirstLevel(t, row, base, 0) == -1 || prio <= FirstLevel(t, row, base, 0))
    && Place(ctx.confs[row].policy, LevelList(t, row, base, prio), item)[0] == item
  }

  // Insertion keeps the arbitration exactly when the new entry does not win or
  // the resource may be tuned in the current mode.
  lemma {:induction false} InsertArbitratedIff(ctx: Ctx, mode: Mode, t: Table, item: Item, prio: int, row: int,
                                               base: int)
    requires Shape(ctx, t) && Managed(ctx, row) && Level(prio) && Arbitrated(t, row, base)
    requires FiledAt(ctx, item.res, prio, row, base)
    requires item !in LevelList(t, row, base, prio)
    ensures Arbitrated(InsertOne(ctx, mode, t, item, prio), row, base)
       <==> Admits(ctx, row, mode) || !Wins(ctx, t, item, prio, row, base)
  {
    var u := InsertOne(ctx, mode, t, item, prio);
    var was, s := FirstLevel(t, row, base, 0), Slot(row, base + prio);
    var l := Place(ctx.confs[row].policy, t.lists[s], item);
    assert u.lists == t.lists[s := l];
    assert forall q :: q != prio ==> LevelList(u, row, base, q) == LevelList(t, row, base, q);
    assert LevelList(u, row, base, prio) == l && l != [];
    FirstLevelIs(u, row, base, if was == -1 || prio <= was then prio else was);
    InForceLast(t.log, Apply(row, item), row);
  }

  // The entry is the only one on the four levels of the resource.
  ghost predicate OnlyEntry(t: Table, item: Item, prio: int, row: int, base: int) {
    forall q :: Level(q) ==> LevelList(t, row, base, q) == if q == prio then [item] else []
  }

  // Where the lists have the entry: once, on its own level.
  ghost predicate ListedOnce(t: Table, item: Item, prio: int, row: int, base: int) {
    forall q :: Level(q) ==> NoDup(LevelList(t, row, base, q)) && (item in LevelList(t, row, base, q) <==> q == prio)
  }

  // Removal keeps the arbitration exactly when the entry was not the one in
  // force, was the only one, or the resource may be tuned in the current mode.
  lemma {:induction false} RemoveArbitratedIff(ctx: Ctx, mode: Mode, t: Table, item: Item, prio: int, row: int,
                                               base: int)
    requires Shape(ctx, t) && Managed(ctx, row) && Level(prio) && Arbitrated(t, row, base)
    requires FiledAt(ctx, item.res, prio, row, base) && ListedOnce(t, item, prio, row, base)
    ensures Arbitrated(RemoveOne(ctx, mode, t, item, prio), row, base)
       <==> Admits(ctx, row, mode) || Winner(t, row, base) != Some(item) || OnlyEntry(t, item, prio, row, base)
  {
    var before := LevelList(t, row, base, prio);
    WithoutMembers(before, item);
    assert item in before;
    if Without(before, item) != [] {
      RemoveOneOfMany(ctx, mode, t, item, prio, row, base);
    } else {
      assert before == [item];
      if OnlyEntry(t, item, prio, row, base) {
        RemoveOnly(ctx, mode, t, item, prio, row, base);
      } else {
        RemoveLastOfLevel(ctx, mode, t, item, prio, row, base);
      }
    }
  }

  // The list keeps other entries.
  lemma {:induction false} RemoveOneOfMany(ctx: Ctx, mode: Mode, t: Table, item: Item, prio: int, row: int, base: int)
    requires Shape(ctx, t) && Managed(ctx, row) && Level(prio) && Arbitrated(t, row, base)
    requires FiledAt(ctx, item.res, prio, row, base) && ListedOnce(t, item, prio, row, base)
    requires Without(LevelList(t, row, base, prio), item) != []
    ensures Arbitrated(RemoveOne(ctx, mode, t, item, prio), row, base)
       <==> Admits(ctx, row, mode) || Winner(t, row, base) != Some(item)
  {
    var r := RemoveOne(ctx, mode, t, item, prio);
    var was, s := FirstLevel(t, row, base, 0), Slot(row, base + prio);
    var before := LevelList(t, row, base, prio);
    var l := Without(before, item);
    WithoutMembers(before, item);
    assert r.lists == t.lists[s := l];
    assert forall q :: q != prio ==> LevelList(r, row, base, q) == LevelList(t, row, base, q);
    assert LevelList(r, row, base, prio) == l;
    FirstLevelIs(r, row, base, was);
    InForceLast(t.log, Apply(row, l[0]), row);
    if before[0] != item {
      assert l[0] == before[0];
    }
  }

  lemma {:induction false} RemoveEmpties(ctx: Ctx, mode: Mode, t: Table, item: Item, prio: int, row: int, base: int)
    returns (u: Table)
    requires Shape(ctx, t) && Managed(ctx, row) && Level(prio)
    requires FiledAt(ctx, item.res, prio, row, base) && LevelList(t, row, base, prio) == [item]
    ensures u == t.(lists := t.lists[Slot(row, base + prio) := []]) && Shape(ctx, u)
    ensures RemoveOne(ctx, mode, t, item, prio) == Fallback(ctx, mode, u, row, base, item)
    ensures forall q :: LevelList(u, row, base, q) == if q == prio then [] else LevelList(t, row, base, q)
  {
    u := t.(lists := t.lists[Slot(row, base + prio) := []]);
    assert Without([item], item) == [];
  }

  // What a fallback that finds nothing leaves behind.
  lemma TornDown(ctx: Ctx, mode: Mode, u: Table, row: int, base: int, item: Item)
    requires Shape(ctx, u) && Managed(ctx, row) && FirstLevel(u, row, base, 0) == -1
    ensures Arbitrated(Fallback(ctx, mode, u, row, base, item), row, base)
  {
    var r := Fallback(ctx, mode, u, row, base, item);
    assert forall q :: LevelList(r, row, base, q) == LevelList(u, row, base, q);
    FirstLevelIs(r, row, base, -1);
    InForceLast(u.log, Tear(row, item), row);
  }

  // Nothing is left: the resource is torn down.
  lemma {:induction false} RemoveOnly(ctx: Ctx, mode: Mode, t: Table, item: Item, prio: int, row: int, base: int)
    requires Shape(ctx, t) && Managed(ctx, row) && Level(prio) && Arbitrated(t, row, base)
    requires FiledAt(ctx, item.res, prio, row, base) && OnlyEntry(t, item, prio, row, base)
    ensures Arbitrated(RemoveOne(ctx, mode, t, item, prio), row, base)
  {
    var u := RemoveEmpties(ctx, mode, t, item, prio, row, base);
    FirstLevelIs(u, row, base, -1);
    TornDown(ctx, mode, u, row, base, item);
  }

  // What a fallback that finds level p leaves behind.
  lemma FellBackTo(ctx: Ctx, mode: Mode, u: Table, row: int, base: int, item: Item, p: int)
    requires Shape(ctx, u) && Managed(ctx, row) && FirstLevel(u, row, base, 0) == p != -1
    ensures var r, head := Fallback(ctx, mode, u, row, base, item), LevelList(u, row, base, p)[0];
      && |r.applied| == |u.applied| && r.applied[row] == p && FirstLevel(r, row, base, 0) == p
      && LevelList(r, row, base, p) == LevelList(u, row, base, p)
      && InForce(r.log, row) == if Admits(ctx, row, mode) then Some(head) else InForce(u.log, row)
  {
    var r := Fallback(ctx, mode, u, row, base, item);
    assert forall q :: LevelList(r, row, base, q) == LevelList(u, row, base, q);
    FirstLevelIs(r, row, base, p);
    InForceLast(u.log, Apply(row, LevelList(u, row, base, p)[0]), row);
  }

  // Another level takes over, or stays in force.
  lemma {:induction false} RemoveLastOfLevel(ctx: Ctx, mode: Mode, t: Table, item: Item, prio: int, row: int, base: int)
    requires Shape(ctx, t) && Managed(ctx, row) && Level(prio) && Arbitrated(t, row, base)
    requires FiledAt(ctx, item.res, prio, row, base) && ListedOnce(t, item, prio, row, base)
    requires LevelList(t, row, base, prio) == [item] && !OnlyEntry(t, item, prio, row, base)
    ensures Arbitrated(RemoveOne(ctx, mode, t, item, prio), row, base)
       <==> Admits(ctx, row, mode) || Winner(t, row, base) != Some(item)
  {
    var u := RemoveEmpties(ctx, mode, t, item, prio, row, base);
    var p, was := FirstLevel(u, row, base, 0), FirstLevel(t, row, base, 0);
    assert p != -1 && p != prio && LevelList(t, row, base, p) != [];
    FellBackTo(ctx, mode, u, row, base, item, p);
    if was != prio {
      FirstLevelIs(u, row, base, was);
    }
  }

  // ---- Every global resource at once ----

  lemma {:induction false} InsertKeepsArbitration(ctx: Ctx, mode: Mode, t: Table, live: seq<Live>, item: Item,
                                                  prio: int, modes: set<Mode>)
    requires Agrees(ctx, t, live) && Fresh(live, item) && Level(prio) && mode in modes
    requires AllArbitrated(ctx, t, modes)
    ensures AllArbitrated(ctx, InsertOne(ctx, mode, t, item, prio), modes)
  {
    forall row | GlobalManaged(ctx, row) && modes <= ctx.confs[row].modes
      ensures Arbitrated(InsertOne(ctx, mode, t, item, prio), row, 0)
    {
      assert Arbitrated(t, row, 0);
      var s := Target(ctx, item.res, prio);
      if s == None || s.value.row != row {
        OtherRows(ctx, mode, t, item, prio, row, 0);
      } else {
        assert s.value == Slot(row, prio);
        ListMembers(ctx, t, live, s.value, item);
        InsertArbitratedIff(ctx, mode, t, item, prio, row, 0);
      }
    }
  }

  lemma {:induction false} InstanceSlots(ctx: Ctx, res: Resource, prio: int, row: int, base: int)
    requires FiledAt(ctx, res, prio, row, base) && Level(prio)
    ensures forall q :: Level(q) ==> ValidSlot(ctx, Slot(row, base + q))
  {
    InstanceIsWhole(ctx, res, prio, Slot(row, base + prio));
    assert forall q :: Level(q) ==> base + prio - prio + q == base + q;
  }

  // The four lists of an instance, as seen from one of its live entries.
  lemma {:induction false} ListedOnceAt(ctx: Ctx, t: Table, live: seq<Live>, x: Live, row: int, base: int)
    requires Agrees(ctx, t, live) && x in live && Managed(ctx, row) && FiledAt(ctx, x.item.res, x.prio, row, base)
    ensures ListedOnce(t, x.item, x.prio, row, base)
  {
    InstanceSlots(ctx, x.item.res, x.prio, row, base);
    ListedOnceAmong(ctx, t, live, x, row, base, Slot(row, base + x.prio));
  }

  lemma {:induction false} ListedOnceAmong(ctx: Ctx, t: Table, live: seq<Live>, x: Live, row: int, base: int, own: Slot)
    requires Agrees(ctx, t, live) && x in live && Managed(ctx, row)
    requires Target(ctx, x.item.res, x.prio) == Some(own) && own == Slot(row, base + x.prio)
    requires forall q :: Level(q) ==> ValidSlot(ctx, Slot(row, base + q))
    ensures ListedOnce(t, x.item, x.prio, row, base)
  {
    forall q | Level(q)
      ensures NoDup(LevelList(t, row, base, q)) && (x.item in LevelList(t, row, base, q) <==> q == x.prio)
    {
      assert ValidSlot(ctx, Slot(row, base + q));
      ListedAt(ctx, t, live, x, own, Slot(row, base + q));
    }
  }

  lemma {:induction false} ListedAt(ctx: Ctx, t: Table, live: seq<Live>, x: Live, own: Slot, s: Slot)
    requires Agrees(ctx, t, live) && x in live && Target(ctx, x.item.res, x.prio) == Some(own)
    requires ValidSlot(ctx, s) && ListManaged(PolicyOf(ctx, s))
    ensures NoDup(ListAt(t, s)) && (x.item in ListAt(t, s) <==> s == own)
  {
    ListedIff(ctx, t, live, s, x);
  }

  lemma {:induction false} RemoveKeepsArbitration(ctx: Ctx, mode: Mode, t: Table, live: seq<Live>, x: Live,
                                                  modes: set<Mode>)
    requires Agrees(ctx, t, live) && x in live && mode in modes
    requires AllArbitrated(ctx, t, modes)
    ensures AllArbitrated(ctx, RemoveOne(ctx, mode, t, x.item, x.prio), modes)
  {
    forall row | GlobalManaged(ctx, row) && modes <= ctx.confs[row].modes
      ensures Arbitrated(RemoveOne(ctx, mode, t, x.item, x.prio), row, 0)
    {
      assert Arbitrated(t, row, 0);
      var s := Target(ctx, x.item.res, x.prio);
      if s == None || s.value.row != row {
        OtherRows(ctx, mode, t, x.item, x.prio, row, 0);
      } else {
        assert s.value == Slot(row, x.prio);
        ListedOnceAt(ctx, t, live, x, row, 0);
        RemoveArbitratedIff(ctx, mode, t, x.item, x.prio, row, 0);
      }
    }
  }

  lemma {:induction false} InsertAllKeepsArbitration(ctx: Ctx, mode: Mode, t: Table, live: seq<Live>, items: seq<Item>,
                                                     prio: int, modes: set<Mode>)
    requires Agrees(ctx, t, live) && FreshRequest(live, items) && Level(prio) && mode in modes
    requires AllArbitrated(ctx, t, modes)
    ensures AllArbitrated(ctx, InsertAll(ctx, mode, t, items, prio), modes)
  {
    if items != [] {
      var init, last := items[..|items| - 1], items[|items| - 1];
      InsertAllKeepsArbitration(ctx, mode, t, live, init, prio, modes);
      InsertAllAgrees(ctx, mode, t, live, init, prio);
      assert last in items;
      InsertKeepsArbitration(ctx, mode, InsertAll(ctx, mode, t, init, prio), live + LiveOf(init, prio), last, prio,
                             modes);
    }
  }

  lemma {:induction false} RemoveAllKeepsArbitration(ctx: Ctx, mode: Mode, t: Table, before: seq<Live>,
                                                     items: seq<Item>, prio: int, behind: seq<Live>, k: nat,
                                                     modes: set<Mode>)
    requires k <= |items| && mode in modes
    requires Agrees(ctx, t, before + LiveOf(items, prio) + behind) && AllArbitrated(ctx, t, modes)
    ensures AllArbitrated(ctx, RemoveAll(ctx, mode, t, items[..k], prio), modes)
  {
    if k > 0 {
      RemoveAllKeepsArbitration(ctx, mode, t, before, items, prio, behind, k - 1, modes);
      RemovePrefixAgrees(ctx, mode, t, before, items, prio, behind, k - 1);
      RemoveNextKeeps(ctx, mode, RemoveAll(ctx, mode, t, items[..k - 1], prio), before, items, prio, behind, k, modes);
      assert items[..k][..k - 1] == items[..k - 1];
    }
  }

  lemma {:induction false} RemoveNextKeeps(ctx: Ctx, mode: Mode, t: Table, before: seq<Live>, items: seq<Item>,
                                           prio: int, behind: seq<Live>, k: nat, modes: set<Mode>)
    requires 0 < k <= |items| && mode in modes && AllArbitrated(ctx, t, modes)
    requires Agrees(ctx, t, before + LiveOf(items[k - 1..], prio) + behind)
    ensures AllArbitrated(ctx, RemoveOne(ctx, mode, t, items[k - 1], prio), modes)
  {
    var live, x := before + LiveOf(items[k - 1..], prio) + behind, Live(items[k - 1], prio);
    assert live[|before|] == x;
    RemoveKeepsArbitration(ctx, mode, t, live, x, modes);
  }
}
