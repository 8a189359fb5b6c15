// The table is a function of the live entries in arrival order: every insertion
// and every removal keeps it so, whatever happened before.

module LiveSet {
  import opened Types
  import opened ListOrder
  import opened CocoSpec

  ghost predicate Fresh(live: seq<Live>, item: Item) {
    forall l :: l in live ==> l.item != item
  }

  lemma HoldersAppend(ctx: Ctx, live: seq<Live>, l: Live, s: Slot)
    ensures Holders(ctx, live + [l], s)
         == Holders(ctx, live, s) + if Target(ctx, l.item.res, l.prio) == Some(s) then [l.item] else []
  {
    assert (live + [l])[..|live|] == live;
  }

  lemma {:induction false} HoldersMembers(ctx: Ctx, live: seq<Live>, s: Slot, x: Item)
    ensures x in Holders(ctx, live, s)
         <==> exists l :: l in live && l.item == x && Target(ctx, x.res, l.prio) == Some(s)
  {
    if live != [] {
      var t, last := live[..|live| - 1], live[|live| - 1];
      assert live == t + [last];
      HoldersMembers(ctx, t, s, x);
    }
  }

  lemma {:induction false} HoldersNoDup(ctx: Ctx, live: seq<Live>, s: Slot)
    requires DistinctItems(live)
    ensures NoDup(Holders(ctx, live, s))
  {
    if live != [] {
      var t, last := live[..|live| - 1], live[|live| - 1];
      HoldersNoDup(ctx, t, s);
      HoldersMembers(ctx, t, s, last.item);
    }
  }

  // Removing a live entry removes it from its slot's holders and from nowhere else.
  lemma {:induction false} HoldersWithout(ctx: Ctx, live: seq<Live>, x: Live, s: Slot)
    requires DistinctItems(live) && x in live
    ensures Holders(ctx, Without(live, x), s)
         == if Target(ctx, x.item.res, x.prio) == Some(s) then Without(Holders(ctx, live, s), x.item)
            else Holders(ctx, live, s)
  {
    var t, last := live[..|live| - 1], live[|live| - 1];
    assert live == t + [last];
    if last == x {
      HoldersWithoutLast(ctx, t, x, s);
    } else {
      assert x in t;
      HoldersWithout(ctx, t, x, s);
      WithoutAppend(t, last, x);
      HoldersAppend(ctx, Without(t, x), last, s);
      assert last.item != x.item;
      assert Holders(ctx, t, s) + [] == Holders(ctx, t, s);
      assert Holders(ctx, Without(t, x), s) + [] == Holders(ctx, Without(t, x), s);
      if Target(ctx, last.item.res, last.prio) == Some(s) {
        WithoutAppend(Holders(ctx, t, s), last.item, x.item);
      }
    }
  }

  lemma HoldersWithoutLast(ctx: Ctx, t: seq<Live>, x: Live, s: Slot)
    requires DistinctItems(t + [x])
    ensures Holders(ctx, Without(t + [x], x), s)
         == if Target(ctx, x.item.res, x.prio) == Some(s) then Without(Holders(ctx, t + [x], s), x.item)
            else Holders(ctx, t + [x], s)
  {
    var live, h := t + [x], Holders(ctx, t, s);
    assert live[|t|] == x;
    forall i | 0 <= i < |t| ensures t[i].item != x.item {
      assert live[i] == t[i];
    }
    WithoutAt(live, |t|);
    assert live[..|t|] + live[|t| + 1..] == t;
    HoldersAppend(ctx, t, x, s);
    HoldersMembers(ctx, t, s, x.item);
    HoldersNoDup(ctx, t, s);
    if Target(ctx, x.item.res, x.prio) == Some(s) {
      WithoutAt(h + [x.item], |h|);
      assert (h + [x.item])[..|h|] + (h + [x.item])[|h| + 1..] == h;
    }
  }

  lemma WithoutKeepsDistinct(live: seq<Live>, x: Live)
    requires DistinctItems(live) && x in live
    ensures DistinctItems(Without(live, x))
    ensures forall l :: l in Without(live, x) <==> l in live && l != x
    ensures Fresh(Without(live, x), x.item)
  {
    WithoutMembers(live, x);
    var k :| 0 <= k < |live| && live[k] == x;
    WithoutAt(live, k);
    var r := Without(live, x);
    assert forall i :: 0 <= i < |r| ==> r[i] == live[if i < k then i else i + 1];
  }

  // ---- One step ----

  lemma InsertAt(ctx: Ctx, mode: Mode, t: Table, item: Item, prio: int, s: Slot)
    requires Shape(ctx, t) && ValidSlot(ctx, s)
    ensures var r, p, hit := InsertOne(ctx, mode, t, item, prio), PolicyOf(ctx, s),
        Target(ctx, item.res, prio) == Some(s);
      && s in r.lists && r.lists[s] == (if hit && ListManaged(p) then Place(p, t.lists[s], item) else t.lists[s])
      && s in r.ranks && r.ranks[s] == t.ranks[s] + if hit && p == PassThrough then 1 else 0
  {
  }

  lemma RemoveAt(ctx: Ctx, mode: Mode, t: Table, item: Item, prio: int, s: Slot)
    requires Shape(ctx, t) && ValidSlot(ctx, s)
    ensures var r, p, hit := RemoveOne(ctx, mode, t, item, prio), PolicyOf(ctx, s),
        Target(ctx, item.res, prio) == Some(s);
      && s in r.lists && r.lists[s] == (if hit && ListManaged(p) then Without(t.lists[s], item) else t.lists[s])
      && s in r.ranks && r.ranks[s] == t.ranks[s] - if hit && p == PassThrough then 1 else 0
  {
  }

  lemma InsertAgreesAt(ctx: Ctx, mode: Mode, t: Table, live: seq<Live>, item: Item, prio: int, s: Slot)
    requires Agrees(ctx, t, live) && ValidSlot(ctx, s)
    ensures SlotAgrees(ctx, InsertOne(ctx, mode, t, item, prio), live + [Live(item, prio)], s)
  {
    assert SlotAgrees(ctx, t, live, s);
    var h := Holders(ctx, live, s);
    HoldersAppend(ctx, live, Live(item, prio), s);
    InsertAt(ctx, mode, t, item, prio, s);
    if Target(ctx, item.res, prio) == Some(s) {
      ArrangeAppend(PolicyOf(ctx, s), h, item);
    } else {
      assert h + [] == h;
    }
  }

  lemma InsertAgrees(ctx: Ctx, mode: Mode, t: Table, live: seq<Live>, item: Item, prio: int)
    requires Agrees(ctx, t, live) && Fresh(live, item) && Level(prio)
    ensures Agrees(ctx, InsertOne(ctx, mode, t, item, prio), live + [Live(item, prio)])
  {
    InsertKeepsShape(ctx, mode, t, item, prio);
    forall s | ValidSlot(ctx, s)
      ensures SlotAgrees(ctx, InsertOne(ctx, mode, t, item, prio), live + [Live(item, prio)], s)
    {
      InsertAgreesAt(ctx, mode, t, live, item, prio, s);
    }
  }

  lemma RemoveAgreesAt(ctx: Ctx, mode: Mode, t: Table, live: seq<Live>, x: Live, s: Slot)
    requires Agrees(ctx, t, live) && ValidSlot(ctx, s) && x in live
    ensures SlotAgrees(ctx, RemoveOne(ctx, mode, t, x.item, x.prio), Without(live, x), s)
  {
    assert SlotAgrees(ctx, t, live, s);
    HoldersWithout(ctx, live, x, s);
    RemoveAt(ctx, mode, t, x.item, x.prio, s);
    if Target(ctx, x.item.res, x.prio) == Some(s) {
      var h := Holders(ctx, live, s);
      HoldersNoDup(ctx, live, s);
      HoldersMembers(ctx, live, s, x.item);
      ArrangeWithout(PolicyOf(ctx, s), h, x.item);
      WithoutMembers(h, x.item);
    }
  }

  lemma RemoveAgrees(ctx: Ctx, mode: Mode, t: Table, live: seq<Live>, x: Live)
    requires Agrees(ctx, t, live) && x in live
    ensures Agrees(ctx, RemoveOne(ctx, mode, t, x.item, x.prio), Without(live, x))
  {
    RemoveKeepsShape(ctx, mode, t, x.item, x.prio);
    WithoutKeepsDistinct(live, x);
    forall s | ValidSlot(ctx, s)
      ensures SlotAgrees(ctx, RemoveOne(ctx, mode, t, x.item, x.prio), Without(live, x), s)
    {
      RemoveAgreesAt(ctx, mode, t, live, x, s);
    }
  }

  // What membership in a list means.
  lemma SameLive(live: seq<Live>, x: Live, y: Live)
    requires DistinctItems(live) && x in live && y in live && x.item == y.item
    ensures x == y
  {
    var i :| 0 <= i < |live| && live[i] == x;
    var j :| 0 <= j < |live| && live[j] == y;
  }

  lemma ListMembers(ctx: Ctx, t: Table, live: seq<Live>, s: Slot, x: Item)
    requires Agrees(ctx, t, live) && ValidSlot(ctx, s) && ListManaged(PolicyOf(ctx, s))
    ensures NoDup(t.lists[s])
    ensures x in t.lists[s] <==> exists l :: l in live && l.item == x && Target(ctx, x.res, l.prio) == Some(s)
  {
    assert SlotAgrees(ctx, t, live, s);
    var h := Holders(ctx, live, s);
    HoldersNoDup(ctx, live, s);
    HoldersMembers(ctx, live, s, x);
    ArrangeNoDup(PolicyOf(ctx, s), h);
    ArrangeMembers(PolicyOf(ctx, s), h);
  }

  // A live entry is on the list of its slot and on no other.
  lemma {:induction false} ListedIff(ctx: Ctx, t: Table, live: seq<Live>, s: Slot, x: Live)
    requires Agrees(ctx, t, live) && ValidSlot(ctx, s) && ListManaged(PolicyOf(ctx, s)) && x in live
    ensures NoDup(t.lists[s])
    ensures x.item in t.lists[s] <==> Target(ctx, x.item.res, x.prio) == Some(s)
  {
    ListMembers(ctx, t, live, s, x.item);
    forall l | l in live && l.item == x.item ensures l == x {
      SameLive(live, l, x);
    }
  }

  // ---- Whole requests ----

  function LiveOf(items: seq<Item>, prio: int): (r: seq<Live>)
    ensures |r| == |items|
    ensures forall i :: 0 <= i < |r| ==> r[i] == Live(items[i], prio)
  {
    seq(|items|, i requires 0 <= i < |items| => Live(items[i], prio))
  }

  ghost predicate FreshRequest(live: seq<Live>, items: seq<Item>) {
    NoDup(items) && forall x :: x in items ==> Fresh(live, x)
  }

  lemma {:induction false} InsertAllAgrees(ctx: Ctx, mode: Mode, t: Table, live: seq<Live>, items: seq<Item>, prio: int)
    requires Agrees(ctx, t, live) && FreshRequest(live, items) && Level(prio)
    ensures Agrees(ctx, InsertAll(ctx, mode, t, items, prio), live + LiveOf(items, prio))
  {
    if items == [] {
      assert live + LiveOf(items, prio) == live;
    } else {
      var init, last := items[..|items| - 1], items[|items| - 1];
      InsertAllAgrees(ctx, mode, t, live, init, prio);
      var mid := live + LiveOf(init, prio);
      assert last in items;
      InsertAgrees(ctx, mode, InsertAll(ctx, mode, t, init, prio), mid, last, prio);
      assert live + LiveOf(items, prio) == mid + [Live(last, prio)];
    }
  }

  // A request's entries are contiguous in arrival order; removing them all
  // leaves what was before and behind them.
  lemma {:induction false} RemoveAllAgrees(ctx: Ctx, mode: Mode, t: Table, before: seq<Live>, items: seq<Item>,
                                           prio: int, behind: seq<Live>)
    requires Agrees(ctx, t, before + LiveOf(items, prio) + behind)
    ensures Agrees(ctx, RemoveAll(ctx, mode, t, items, prio), before + behind)
  {
    RemovePrefixAgrees(ctx, mode, t, before, items, prio, behind, |items|);
    assert items[..|items|] == items;
    assert before + LiveOf(items[|items|..], prio) + behind == before + behind;
  }

  lemma {:induction false} RemovePrefixAgrees(ctx: Ctx, mode: Mode, t: Table, before: seq<Live>, items: seq<Item>,
                                              prio: int, behind: seq<Live>, k: nat)
    requires k <= |items| && Agrees(ctx, t, before + LiveOf(items, prio) + behind)
    ensures Agrees(ctx, RemoveAll(ctx, mode, t, items[..k], prio), before + LiveOf(items[k..], prio) + behind)
  {
    if k == 0 {
      assert items[0..] == items;
    } else {
      RemovePrefixAgrees(ctx, mode, t, before, items, prio, behind, k - 1);
      assert items[..k][..k - 1] == items[..k - 1];
      LiveSplit(before, items, prio, behind, k);
      RemoveMiddle(ctx, mode, RemoveAll(ctx, mode, t, items[..k - 1], prio), before, items[k - 1],
                   LiveOf(items[k..], prio) + behind, prio);
    }
  }

  lemma LiveSplit(before: seq<Live>, items: seq<Item>, prio: int, behind: seq<Live>, k: nat)
    requires 0 < k <= |items|
    ensures before + LiveOf(items[k - 1..], prio) + behind
         == before + [Live(items[k - 1], prio)] + (LiveOf(items[k..], prio) + behind)
    ensures before + (LiveOf(items[k..], prio) + behind) == before + LiveOf(items[k..], prio) + behind
  {
  }

  lemma RemoveMiddle(ctx: Ctx, mode: Mode, t: Table, before: seq<Live>, x: Item, behind: seq<Live>, prio: int)
    requires Agrees(ctx, t, before + [Live(x, prio)] + behind)
    ensures Agrees(ctx, RemoveOne(ctx, mode, t, x, prio), before + behind)
  {
    var live, l := before + [Live(x, prio)] + behind, Live(x, prio);
    assert live[|before|] == l;
    RemoveAgrees(ctx, mode, t, live, l);
    WithoutAt(live, |before|);
    assert live[..|before|] + live[|before| + 1..] == before + behind;
  }
}
