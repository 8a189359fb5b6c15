// Resources with several instances. One register cell serves all of them, so the
// entries of one instance can keep those of another from being applied. As long
// as the live entries are of one instance, that instance is arbitrated.

module Instances {
  import opened Types
  import opened ListOrder
  import opened CocoSpec
  import opened LiveSet
  import opened Arbitration
  import opened Coordinator

  ghost predicate OnResource(ctx: Ctx, l: Live, row: int) {
    var s := Target(ctx, l.item.res, l.prio);
    s.Some? && s.value.row == row
  }

  ghost predicate OfInstance(ctx: Ctx, l: Live, row: int, base: int) {
    OnResource(ctx, l, row) ==> FiledAt(ctx, l.item.res, l.prio, row, base)
  }

  // All live entries of the resource are of the instance whose columns start at
  // base.
  ghost predicate OneInstance(ctx: Ctx, live: seq<Live>, row: int, base: int) {
    forall l {:trigger OfInstance(ctx, l, row, base)} :: l in live ==> OfInstance(ctx, l, row, base)
  }

  // If they are of one instance, that instance is arbitrated.
  ghost predicate InstanceArbitrated(ctx: Ctx, t: Table, live: seq<Live>, row: int) {
    forall base {:trigger OneInstance(ctx, live, row, base)} ::
      OneInstance(ctx, live, row, base) ==> Arbitrated(t, row, base)
  }

  lemma FewerOneInstance(ctx: Ctx, live: seq<Live>, fewer: seq<Live>, row: int, base: int)
    requires OneInstance(ctx, live, row, base) && forall l :: l in fewer ==> l in live
    ensures OneInstance(ctx, fewer, row, base)
  {
    forall l | l in fewer ensures OfInstance(ctx, l, row, base) {
      assert l in live;
    }
  }

  // ---- One step ----

  lemma {:induction false} InsertHere(ctx: Ctx, mode: Mode, t: Table, live: seq<Live>, x: Live, row: int, base: int)
    requires Agrees(ctx, t, live) && Fresh(live, x.item) && Level(x.prio) && Managed(ctx, row) && Admits(ctx, row, mode)
    requires Arbitrated(t, row, base) && FiledAt(ctx, x.item.res, x.prio, row, base)
    ensures Arbitrated(InsertOne(ctx, mode, t, x.item, x.prio), row, base)
  {
    assert x.item !in LevelList(t, row, base, x.prio) by {
      NotListed(ctx, t, live, x.item, row, base, x.prio);
    }
    InsertArbitratedIff(ctx, mode, t, x.item, x.prio, row, base);
  }

  lemma {:induction false} InsertInstance(ctx: Ctx, mode: Mode, t: Table, live: seq<Live>, item: Item, prio: int,
                                          row: int)
    requires Agrees(ctx, t, live) && Fresh(live, item) && Level(prio) && Managed(ctx, row) && Admits(ctx, row, mode)
    requires InstanceArbitrated(ctx, t, live, row)
    ensures InstanceArbitrated(ctx, InsertOne(ctx, mode, t, item, prio), live + [Live(item, prio)], row)
  {
    var x := Live(item, prio);
    var more := live + [x];
    forall base | OneInstance(ctx, more, row, base)
      ensures Arbitrated(InsertOne(ctx, mode, t, item, prio), row, base)
    {
      FewerOneInstance(ctx, more, live, row, base);
      assert more[|live|] == x && OfInstance(ctx, x, row, base);
      if OnResource(ctx, x, row) {
        InsertHere(ctx, mode, t, live, x, row, base);
      } else {
        OtherRows(ctx, mode, t, item, prio, row, base);
      }
    }
  }

  lemma NotListed(ctx: Ctx, t: Table, live: seq<Live>, item: Item, row: int, base: int, q: int)
    requires Agrees(ctx, t, live) && Fresh(live, item) && Managed(ctx, row)
    ensures item !in LevelList(t, row, base, q)
  {
    if ValidSlot(ctx, Slot(row, base + q)) {
      ListMembers(ctx, t, live, Slot(row, base + q), item);
    }
  }

  // Without an entry left, arbitrated at one instance means at any.
  lemma EmptyArbitrated(ctx: Ctx, t: Table, live: seq<Live>, row: int, base: int, other: int)
    requires Agrees(ctx, t, live) && Managed(ctx, row) && Arbitrated(t, row, base)
    requires forall l :: l in live ==> !OnResource(ctx, l, row)
    ensures Arbitrated(t, row, other)
  {
    forall b, q ensures LevelList(t, row, b, q) == [] {
      NothingListed(ctx, t, live, Slot(row, b + q));
    }
    FirstLevelIs(t, row, base, -1);
    FirstLevelIs(t, row, other, -1);
  }

  lemma NothingListed(ctx: Ctx, t: Table, live: seq<Live>, s: Slot)
    requires Agrees(ctx, t, live) && Managed(ctx, s.row)
    requires forall l :: l in live ==> !OnResource(ctx, l, s.row)
    ensures ListAt(t, s) == []
  {
    if ValidSlot(ctx, s) && ListAt(t, s) != [] {
      ListMembers(ctx, t, live, s, ListAt(t, s)[0]);
    }
  }

  lemma {:induction false} RemoveElsewhere(ctx: Ctx, mode: Mode, t: Table, live: seq<Live>, x: Live, row: int,
                                           base: int)
    requires Agrees(ctx, t, live) && x in live && !OnResource(ctx, x, row)
    requires InstanceArbitrated(ctx, t, live, row) && OneInstance(ctx, Without(live, x), row, base)
    ensures Arbitrated(RemoveOne(ctx, mode, t, x.item, x.prio), row, base)
  {
    WithoutLive(live, x);
    forall l | l in live ensures OfInstance(ctx, l, row, base) {
      assert l != x ==> l in Without(live, x);
    }
    assert OneInstance(ctx, live, row, base);
    OtherRows(ctx, mode, t, x.item, x.prio, row, base);
  }

  lemma {:induction false} RemoveHere(ctx: Ctx, mode: Mode, t: Table, live: seq<Live>, x: Live, row: int, was: int)
    requires Agrees(ctx, t, live) && x in live && Managed(ctx, row) && Admits(ctx, row, mode)
    requires Arbitrated(t, row, was) && FiledAt(ctx, x.item.res, x.prio, row, was)
    ensures Arbitrated(RemoveOne(ctx, mode, t, x.item, x.prio), row, was)
  {
    ListedOnceAt(ctx, t, live, x, row, was);
    RemoveArbitratedIff(ctx, mode, t, x.item, x.prio, row, was);
  }

  // What is left is of the same instance, or there is nothing left.
  lemma SameInstance(ctx: Ctx, t: Table, live: seq<Live>, rest: seq<Live>, row: int, was: int, base: int)
    requires Agrees(ctx, t, rest) && Managed(ctx, row) && Arbitrated(t, row, was)
    requires OneInstance(ctx, live, row, was) && OneInstance(ctx, rest, row, base)
    requires forall l :: l in rest ==> l in live
    ensures Arbitrated(t, row, base)
  {
    if l :| l in rest && OnResource(ctx, l, row) {
      assert OfInstance(ctx, l, row, base) && OfInstance(ctx, l, row, was);
    } else {
      EmptyArbitrated(ctx, t, rest, row, was, base);
    }
  }

  lemma {:induction false} RemoveInstance(ctx: Ctx, mode: Mode, t: Table, live: seq<Live>, x: Live, row: int, was: int)
    requires Agrees(ctx, t, live) && x in live && Managed(ctx, row) && Admits(ctx, row, mode)
    requires InstanceArbitrated(ctx, t, live, row) && OneInstance(ctx, live, row, was)
    ensures InstanceArbitrated(ctx, RemoveOne(ctx, mode, t, x.item, x.prio), Without(live, x), row)
  {
    var r, rest := RemoveOne(ctx, mode, t, x.item, x.prio), Without(live, x);
    WithoutLive(live, x);
    RemoveAgrees(ctx, mode, t, live, x);
    assert OfInstance(ctx, x, row, was);
    forall base | OneInstance(ctx, rest, row, base) ensures Arbitrated(r, row, base) {
      if OnResource(ctx, x, row) {
        RemoveHere(ctx, mode, t, live, x, row, was);
        SameInstance(ctx, r, live, rest, row, was, base);
      } else {
        RemoveElsewhere(ctx, mode, t, live, x, row, base);
      }
    }
  }

  lemma WithoutLive(live: seq<Live>, x: Live)
    requires DistinctItems(live)
    ensures forall l :: l in Without(live, x) <==> l in live && l != x
  {
    assert NoDup(live) by {
      assert forall i, j :: 0 <= i < j < |live| ==> live[i].item != live[j].item;
    }
    WithoutMembers(live, x);
  }

  // ---- Whole requests ----

  lemma {:induction false} InsertAllInstance(ctx: Ctx, mode: Mode, t: Table, live: seq<Live>, items: seq<Item>,
                                             prio: int, row: int)
    requires Agrees(ctx, t, live) && FreshRequest(live, items) && Level(prio)
    requires Managed(ctx, row) && Admits(ctx, row, mode) && InstanceArbitrated(ctx, t, live, row)
    ensures InstanceArbitrated(ctx, InsertAll(ctx, mode, t, items, prio), live + LiveOf(items, prio), row)
  {
    if items == [] {
      assert live + LiveOf(items, prio) == live;
    } else {
      var init, last := items[..|items| - 1], items[|items| - 1];
      var mid := live + LiveOf(init, prio);
      InsertAllInstance(ctx, mode, t, live, init, prio, row);
      InsertAllAgrees(ctx, mode, t, live, init, prio);
      assert last in items && Fresh(live, last);
      InsertInstance(ctx, mode, InsertAll(ctx, mode, t, init, prio), mid, last, prio, row);
      assert live + LiveOf(items, prio) == mid + [Live(last, prio)];
    }
  }

  lemma {:induction false} RemoveAllInstance(ctx: Ctx, mode: Mode, t: Table, before: seq<Live>, items: seq<Item>,
                                             prio: int, behind: seq<Live>, k: nat, row: int, was: int)
    requires k <= |items| && Managed(ctx, row) && Admits(ctx, row, mode)
    requires var live := before + LiveOf(items, prio) + behind;
      Agrees(ctx, t, live) && InstanceArbitrated(ctx, t, live, row) && OneInstance(ctx, live, row, was)
    ensures InstanceArbitrated(ctx, RemoveAll(ctx, mode, t, items[..k], prio),
                               before + LiveOf(items[k..], prio) + behind, row)
  {
    if k == 0 {
      assert items[0..] == items;
    } else {
      RemoveAllInstance(ctx, mode, t, before, items, prio, behind, k - 1, row, was);
      RemovePrefixAgrees(ctx, mode, t, before, items, prio, behind, k - 1);
      RemoveNextInstance(ctx, mode, RemoveAll(ctx, mode, t, items[..k - 1], prio), before, items, prio, behind, k, row,
                         was);
      RemoveAllMore(ctx, mode, t, items, prio, k);
    }
  }

  lemma {:induction false} RemoveAllMore(ctx: Ctx, mode: Mode, t: Table, items: seq<Item>, prio: int, k: nat)
    requires 0 < k <= |items| && Shape(ctx, t)
    ensures RemoveAll(ctx, mode, t, items[..k], prio)
         == RemoveOne(ctx, mode, RemoveAll(ctx, mode, t, items[..k - 1], prio), items[k - 1], prio)
  {
    assert items[..k][..k - 1] == items[..k - 1];
  }

  lemma {:induction false} RemoveNextInstance(ctx: Ctx, mode: Mode, t: Table, before: seq<Live>, items: seq<Item>,
                                              prio: int, behind: seq<Live>, k: nat, row: int, was: int)
    requires 0 < k <= |items| && Managed(ctx, row) && Admits(ctx, row, mode)
    requires OneInstance(ctx, before + LiveOf(items, prio) + behind, row, was)
    requires var live := before + LiveOf(items[k - 1..], prio) + behind;
      Agrees(ctx, t, live) && InstanceArbitrated(ctx, t, live, row)
    ensures InstanceArbitrated(ctx, RemoveOne(ctx, mode, t, items[k - 1], prio),
                               before + LiveOf(items[k..], prio) + behind, row)
  {
    var live, x := before + LiveOf(items[k - 1..], prio) + behind, Live(items[k - 1], prio);
    forall l | l in live ensures l in before + LiveOf(items, prio) + behind {
      TailMembers(items, prio, k - 1, l);
    }
    FewerOneInstance(ctx, before + LiveOf(items, prio) + behind, live, row, was);
    LiveSplit(before, items, prio, behind, k);
    assert live[|before|] == x;
    RemoveInstance(ctx, mode, t, live, x, row, was);
    WithoutMiddle(before, x, LiveOf(items[k..], prio) + behind);
  }

  lemma TailMembers(items: seq<Item>, prio: int, k: nat, l: Live)
    requires k <= |items|
    ensures l in LiveOf(items[k..], prio) ==> l in LiveOf(items, prio)
  {
    if l in LiveOf(items[k..], prio) {
      var i :| 0 <= i < |items| - k && LiveOf(items[k..], prio)[i] == l;
      assert LiveOf(items, prio)[k + i] == l;
    }
  }

  lemma WithoutMiddle(before: seq<Live>, x: Live, behind: seq<Live>)
    requires DistinctItems(before + [x] + behind)
    ensures Without(before + [x] + behind, x) == before + behind
  {
    var live := before + [x] + behind;
    forall i, j | 0 <= i < j < |live| ensures live[i] != live[j] {
      assert live[i].item != live[j].item;
    }
    assert live[|before|] == x;
    WithoutAt(live, |before|);
  }

  // ---- Whole runs ----

  // After each step the live entries of the resource are of one instance.
  ghost predicate OneInstanceThroughout(ctx: Ctx, ops: seq<Op>, row: int) {
    forall i {:trigger OneInstanceAfter(ctx, ops, row, i)} :: 0 <= i <= |ops| ==> OneInstanceAfter(ctx, ops, row, i)
  }

  ghost predicate OneInstanceAfter(ctx: Ctx, ops: seq<Op>, row: int, i: int)
    requires 0 <= i <= |ops|
  {
    exists base :: OneInstance(ctx, Flatten(Run(ctx, ops[..i]).reqs), row, base)
  }

  lemma {:induction false} StepInstance(ctx: Ctx, st: State, op: Op, row: int, was: int)
    requires Agrees(ctx, st.table, Flatten(st.reqs)) && Managed(ctx, row) && Admits(ctx, row, op.mode)
    requires InstanceArbitrated(ctx, st.table, Flatten(st.reqs), row) && OneInstance(ctx, Flatten(st.reqs), row, was)
    ensures var u := Step(ctx, st, op); InstanceArbitrated(ctx, u.table, Flatten(u.reqs), row)
  {
    match op
    case Insert(req, mode) =>
      if FreshRequest(Flatten(st.reqs), req.items) && Level(req.prio) {
        if Accepted(ctx, req.items, req.prio) == 0 {
          RefusedChangesNothing(ctx, mode, st.table, req.items, req.prio);
        } else {
          InsertAllInstance(ctx, mode, st.table, Flatten(st.reqs), req.items, req.prio, row);
          FlattenAppend(st.reqs, req);
        }
      }
    case Remove(k, mode) =>
      if k < |st.reqs| {
        RemoveRequestInstance(ctx, mode, st, k, row, was);
      }
  }

  lemma {:induction false} RemoveRequestInstance(ctx: Ctx, mode: Mode, st: State, k: nat, row: int, was: int)
    requires Agrees(ctx, st.table, Flatten(st.reqs)) && Managed(ctx, row) && Admits(ctx, row, mode) && k < |st.reqs|
    requires InstanceArbitrated(ctx, st.table, Flatten(st.reqs), row) && OneInstance(ctx, Flatten(st.reqs), row, was)
    ensures InstanceArbitrated(ctx, RemoveAll(ctx, mode, st.table, st.reqs[k].items, st.reqs[k].prio),
                               Flatten(st.reqs[..k] + st.reqs[k + 1..]), row)
  {
    var req := st.reqs[k];
    var before, behind := Flatten(st.reqs[..k]), Flatten(st.reqs[k + 1..]);
    FlattenSplit(st.reqs, k);
    RemoveAllInstance(ctx, mode, st.table, before, req.items, req.prio, behind, |req.items|, row, was);
    assert req.items[..|req.items|] == req.items;
    assert before + LiveOf(req.items[|req.items|..], req.prio) + behind == before + behind;
  }

  lemma {:induction false} RunInstance(ctx: Ctx, ops: seq<Op>, row: int)
    requires Managed(ctx, row) && forall op :: op in ops ==> Admits(ctx, row, op.mode)
    requires OneInstanceThroughout(ctx, ops, row)
    ensures var st := Run(ctx, ops); InstanceArbitrated(ctx, st.table, Flatten(st.reqs), row)
  {
    if ops == [] {
      EmptyInstance(ctx, row);
    } else {
      var init, op := ops[..|ops| - 1], ops[|ops| - 1];
      var st := Run(ctx, init);
      RunMore(ctx, init, op, ops);
      forall i | 0 <= i <= |init| ensures OneInstanceAfter(ctx, init, row, i) {
        assert init[..i] == ops[..i] && OneInstanceAfter(ctx, ops, row, i);
      }
      RunInstance(ctx, init, row);
      RunGood(ctx, init, ctx.confs[row].modes);
      assert OneInstanceAfter(ctx, ops, row, |init|);
      var was :| OneInstance(ctx, Flatten(st.reqs), row, was);
      StepInstance(ctx, st, op, row, was);
    }
  }

  lemma EmptyInstance(ctx: Ctx, row: int)
    requires Managed(ctx, row)
    ensures InstanceArbitrated(ctx, EmptyTable(ctx), [], row)
  {
    forall base ensures Arbitrated(EmptyTable(ctx), row, base) {
      FirstLevelIs(EmptyTable(ctx), row, base, -1);
    }
  }

  // After any run during which the live entries of a resource are of one
  // instance at a time, the register names the first non-empty level of the
  // instance they are of, and the head of that level is in force.
  lemma OneInstanceArbitrated(ctx: Ctx, ops: seq<Op>, row: int, base: int)
    requires Managed(ctx, row) && forall op :: op in ops ==> Admits(ctx, row, op.mode)
    requires OneInstanceThroughout(ctx, ops, row) && OneInstance(ctx, Flatten(Run(ctx, ops).reqs), row, base)
    ensures Arbitrated(Run(ctx, ops).table, row, base)
  {
    RunInstance(ctx, ops, row);
  }

  // ---- Two instances ----

  // One entry each for two instances of a resource.
  ghost predicate TwoInstances(ctx: Ctx, a: Live, b: Live, row: int, baseA: int, baseB: int) {
    && Managed(ctx, row) && a.item != b.item && Level(a.prio) && Level(b.prio)
    && FiledAt(ctx, a.item.res, a.prio, row, baseA) && FiledAt(ctx, b.item.res, b.prio, row, baseB)
    && forall q, r :: Level(q) && Level(r) ==> baseA + q != baseB + r
  }

  lemma FirstInserted(ctx: Ctx, mode: Mode, a: Live, row: int, base: int)
    requires Managed(ctx, row) && FiledAt(ctx, a.item.res, a.prio, row, base) && Level(a.prio) && Admits(ctx, row, mode)
    ensures Shape(ctx, EmptyTable(ctx))
    ensures var e := EmptyTable(ctx);
      InsertOne(ctx, mode, e, a.item, a.prio)
      == e.(lists := e.lists[Slot(row, base + a.prio) := [a.item]], applied := e.applied[row := a.prio],
            log := [Apply(row, a.item)])
  {
    EmptyTableAgrees(ctx, {});
  }

  // Into an instance with nothing listed, while the register has a more
  // important level of another.
  lemma SecondInserted(ctx: Ctx, mode: Mode, t: Table, b: Live, row: int, base: int)
    requires Shape(ctx, t) && Managed(ctx, row) && FiledAt(ctx, b.item.res, b.prio, row, base) && Level(b.prio)
    requires Level(t.applied[row]) && t.applied[row] < b.prio && ListAt(t, Slot(row, base + b.prio)) == []
    ensures InsertOne(ctx, mode, t, b.item, b.prio) == t.(lists := t.lists[Slot(row, base + b.prio) := [b.item]])
  {
  }

  lemma EmptyList(ctx: Ctx, s: Slot)
    ensures ListAt(EmptyTable(ctx), s) == []
  {
  }

  // What the two lists look like then.
  ghost predicate ListsAre(ctx: Ctx, t: Table, a: Live, b: Live, row: int, baseA: int, baseB: int) {
    t.lists == EmptyTable(ctx).lists[Slot(row, baseA + a.prio) := [a.item]][Slot(row, baseB + b.prio) := [b.item]]
  }

  lemma MoreImportantEmpty(ctx: Ctx, t: Table, a: Live, b: Live, row: int, baseA: int, baseB: int, q: int)
    requires TwoInstances(ctx, a, b, row, baseA, baseB) && ListsAre(ctx, t, a, b, row, baseA, baseB)
    requires 0 <= q < b.prio
    ensures LevelList(t, row, baseB, q) == []
  {
    assert Level(q) && Level(a.prio) && Slot(row, baseB + q) != Slot(row, baseA + a.prio);
    EmptyList(ctx, Slot(row, baseB + q));
  }

  lemma {:induction false} SecondIsHead(ctx: Ctx, t: Table, a: Live, b: Live, row: int, baseA: int, baseB: int)
    requires TwoInstances(ctx, a, b, row, baseA, baseB) && ListsAre(ctx, t, a, b, row, baseA, baseB)
    requires t.log == [Apply(row, a.item)]
    ensures Winner(t, row, baseB) == Some(b.item) && !Arbitrated(t, row, baseB)
  {
    assert LevelList(t, row, baseB, b.prio) == [b.item];
    forall q | 0 <= q < b.prio ensures LevelList(t, row, baseB, q) == [] {
      MoreImportantEmpty(ctx, t, a, b, row, baseA, baseB, q);
    }
    FirstLevelIs(t, row, baseB, b.prio);
    assert t.log == [] + [Apply(row, a.item)];
    InForceLast([], Apply(row, a.item), row);
  }

  lemma BothInserted(ctx: Ctx, mode: Mode, a: Live, b: Live, row: int, baseA: int, baseB: int)
    requires TwoInstances(ctx, a, b, row, baseA, baseB) && a.prio < b.prio && Admits(ctx, row, mode)
    ensures Shape(ctx, EmptyTable(ctx)) && Shape(ctx, InsertOne(ctx, mode, EmptyTable(ctx), a.item, a.prio))
    ensures var t := InsertOne(ctx, mode, InsertOne(ctx, mode, EmptyTable(ctx), a.item, a.prio), b.item, b.prio);
      ListsAre(ctx, t, a, b, row, baseA, baseB) && t.log == [Apply(row, a.item)]
  {
    FirstInserted(ctx, mode, a, row, baseA);
    InsertKeepsShape(ctx, mode, EmptyTable(ctx), a.item, a.prio);
    EmptyList(ctx, Slot(row, baseB + b.prio));
    SecondInserted(ctx, mode, InsertOne(ctx, mode, EmptyTable(ctx), a.item, a.prio), b, row, baseB);
  }

  function OfOne(l: Live): TuneReq {
    TuneReq([l.item], l.prio)
  }

  lemma {:induction false} RunMore(ctx: Ctx, init: seq<Op>, op: Op, ops: seq<Op>)
    requires ops == init + [op]
    ensures Run(ctx, ops) == Step(ctx, Run(ctx, init), op)
  {
    assert ops[..|ops| - 1] == init;
  }

  lemma {:induction false} StepFromEmpty(ctx: Ctx, mode: Mode, t: Table, a: Live)
    requires Shape(ctx, t) && Level(a.prio) && Target(ctx, a.item.res, a.prio).Some?
    ensures Step(ctx, State(t, []), Insert(OfOne(a), mode))
         == State(InsertOne(ctx, mode, t, a.item, a.prio), [OfOne(a)])
  {
    assert Flatten([]) == [] && [] + [OfOne(a)] == [OfOne(a)];
    OneEntry(ctx, mode, t, a);
  }

  lemma {:induction false} RunFirst(ctx: Ctx, mode: Mode, a: Live, ops: seq<Op>)
    requires ops == [Insert(OfOne(a), mode)] && Level(a.prio) && Target(ctx, a.item.res, a.prio).Some?
    ensures Shape(ctx, EmptyTable(ctx))
    ensures Run(ctx, ops) == State(InsertOne(ctx, mode, EmptyTable(ctx), a.item, a.prio), [OfOne(a)])
  {
    EmptyTableAgrees(ctx, {});
    RunMore(ctx, [], Insert(OfOne(a), mode), ops);
    StepFromEmpty(ctx, mode, EmptyTable(ctx), a);
  }

  lemma {:induction false} RunSecond(ctx: Ctx, mode: Mode, t: Table, a: Live, b: Live, one: seq<Op>, two: seq<Op>)
    requires Shape(ctx, t) && Run(ctx, one) == State(t, [OfOne(a)]) && two == one + [Insert(OfOne(b), mode)]
    requires a.item != b.item && Level(b.prio)
    ensures Run(ctx, two).table == InsertOne(ctx, mode, t, b.item, b.prio)
  {
    RunMore(ctx, one, Insert(OfOne(b), mode), two);
    StepOfOne(ctx, mode, t, a, b);
  }

  lemma {:induction false} StepOfOne(ctx: Ctx, mode: Mode, t: Table, a: Live, b: Live)
    requires Shape(ctx, t) && a.item != b.item && Level(b.prio)
    ensures Step(ctx, State(t, [OfOne(a)]), Insert(OfOne(b), mode)).table == InsertOne(ctx, mode, t, b.item, b.prio)
  {
    FlattenAppend([], OfOne(a));
    assert [] + [OfOne(a)] == [OfOne(a)] && Flatten([OfOne(a)]) == [a];
    OneEntry(ctx, mode, t, b);
  }

  lemma OneEntry(ctx: Ctx, mode: Mode, t: Table, l: Live)
    requires Shape(ctx, t)
    ensures InsertAll(ctx, mode, t, [l.item], l.prio) == InsertOne(ctx, mode, t, l.item, l.prio)
    ensures Accepted(ctx, [l.item], l.prio) == if Target(ctx, l.item.res, l.prio).Some? then 1 else 0
  {
    assert [l.item][..0] == [];
  }

  // The entry b is the head of its instance, and the only value in force is a's.
  ghost predicate Blocked(t: Table, a: Live, b: Live, row: int, base: int) {
    Winner(t, row, base) == Some(b.item) && t.log == [Apply(row, a.item)] && !Arbitrated(t, row, base)
  }

  lemma {:induction false} SecondBlocked(ctx: Ctx, mode: Mode, a: Live, b: Live, row: int, baseA: int, baseB: int)
    requires TwoInstances(ctx, a, b, row, baseA, baseB) && a.prio < b.prio && Admits(ctx, row, mode)
    ensures Shape(ctx, EmptyTable(ctx)) && Shape(ctx, InsertOne(ctx, mode, EmptyTable(ctx), a.item, a.prio))
    ensures Blocked(InsertOne(ctx, mode, InsertOne(ctx, mode, EmptyTable(ctx), a.item, a.prio), b.item, b.prio),
                    a, b, row, baseB)
  {
    BothInserted(ctx, mode, a, b, row, baseA, baseB);
    var u := InsertOne(ctx, mode, EmptyTable(ctx), a.item, a.prio);
    SecondIsHead(ctx, InsertOne(ctx, mode, u, b.item, b.prio), a, b, row, baseA, baseB);
  }

  // A tune for one instance, then one of a less important level for another. The
  // second becomes the head of the first non-empty level of its instance, and is
  // not applied: the register still has the level of the other instance.
  lemma {:induction false} OtherInstanceBlocks(ctx: Ctx, mode: Mode, a: Live, b: Live, row: int, baseA: int, baseB: int,
                                               one: seq<Op>, two: seq<Op>)
    requires TwoInstances(ctx, a, b, row, baseA, baseB) && a.prio < b.prio && Admits(ctx, row, mode)
    requires one == [Insert(OfOne(a), mode)] && two == one + [Insert(OfOne(b), mode)]
    ensures Blocked(Run(ctx, two).table, a, b, row, baseB)
  {
    SecondBlocked(ctx, mode, a, b, row, baseA, baseB);
    RunBoth(ctx, mode, InsertOne(ctx, mode, EmptyTable(ctx), a.item, a.prio), a, b, one, two);
  }

  lemma {:induction false} RunBoth(ctx: Ctx, mode: Mode, u: Table, a: Live, b: Live, one: seq<Op>, two: seq<Op>)
    requires a.item != b.item && Level(a.prio) && Level(b.prio) && Target(ctx, a.item.res, a.prio).Some?
    requires Shape(ctx, EmptyTable(ctx)) && Shape(ctx, u) && u == InsertOne(ctx, mode, EmptyTable(ctx), a.item, a.prio)
    requires one == [Insert(OfOne(a), mode)] && two == one + [Insert(OfOne(b), mode)]
    ensures Run(ctx, two).table == InsertOne(ctx, mode, u, b.item, b.prio)
  {
    RunFirst(ctx, mode, a, one);
    RunSecond(ctx, mode, u, a, b, one, two);
  }
}
