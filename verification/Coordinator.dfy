// What the coordinator guarantees over whole runs of request insertions and
// removals, stated in terms of the live requests alone.

module Coordinator {
  import opened Types
  import opened ListOrder
  import opened CocoSpec
  import opened LiveSet
  import opened Arbitration

  // The entries and the priority level of one tune request.
  datatype TuneReq = TuneReq(items: seq<Item>, prio: int)

  function Flatten(reqs: seq<TuneReq>): seq<Live> {
    if reqs == [] then []
    else Flatten(reqs[..|reqs| - 1]) + LiveOf(reqs[|reqs| - 1].items, reqs[|reqs| - 1].prio)
  }

  lemma {:induction false} FlattenConcat(a: seq<TuneReq>, b: seq<TuneReq>)
    ensures Flatten(a + b) == Flatten(a) + Flatten(b)
  {
    if b == [] {
      assert a + b == a;
    } else {
      var t, r := b[..|b| - 1], b[|b| - 1];
      FlattenConcat(a, t);
      FlattenAppend(a + t, r);
      FlattenAppend(t, r);
      assert b == t + [r] && a + b == a + t + [r];
    }
  }

  lemma FlattenSplit(reqs: seq<TuneReq>, k: nat)
    requires k < |reqs|
    ensures Flatten(reqs) == Flatten(reqs[..k]) + LiveOf(reqs[k].items, reqs[k].prio) + Flatten(reqs[k + 1..])
    ensures Flatten(reqs[..k] + reqs[k + 1..]) == Flatten(reqs[..k]) + Flatten(reqs[k + 1..])
  {
    SplitAround(reqs, k);
    FlattenThree(reqs[..k], reqs[k], reqs[k + 1..]);
  }

  lemma SplitAround<T>(s: seq<T>, k: nat)
    requires k < |s|
    ensures s == s[..k] + [s[k]] + s[k + 1..]
  {
  }

  lemma FlattenThree(a: seq<TuneReq>, r: TuneReq, b: seq<TuneReq>)
    ensures Flatten(a + [r] + b) == Flatten(a) + LiveOf(r.items, r.prio) + Flatten(b)
    ensures Flatten(a + b) == Flatten(a) + Flatten(b)
  {
    FlattenConcat(a, b);
    FlattenConcat(a + [r], b);
    FlattenAppend(a, r);
  }

  lemma FlattenAppend(a: seq<TuneReq>, r: TuneReq)
    ensures Flatten(a + [r]) == Flatten(a) + LiveOf(r.items, r.prio)
  {
    assert (a + [r])[..|a|] == a;
  }

  // Every live entry belongs to a request.
  lemma {:induction false} FlattenMembers(reqs: seq<TuneReq>, l: Live)
    requires l in Flatten(reqs)
    ensures exists i :: 0 <= i < |reqs| && l.item in reqs[i].items && l.prio == reqs[i].prio
  {
    var init, last := reqs[..|reqs| - 1], reqs[|reqs| - 1];
    if l in LiveOf(last.items, last.prio) {
      var j :| 0 <= j < |last.items| && LiveOf(last.items, last.prio)[j] == l;
      assert l.item in reqs[|reqs| - 1].items;
    } else {
      FlattenMembers(init, l);
      var i :| 0 <= i < |init| && l.item in init[i].items && l.prio == init[i].prio;
      assert reqs[i] == init[i];
    }
  }

  lemma {:induction false} FlattenHas(reqs: seq<TuneReq>, k: nat, x: Item) returns (i: nat)
    requires k < |reqs| && x in reqs[k].items
    ensures i < |Flatten(reqs)| && Flatten(reqs)[i] == Live(x, reqs[k].prio)
  {
    var items, prio := reqs[k].items, reqs[k].prio;
    FlattenSplit(reqs, k);
    var j :| 0 <= j < |items| && items[j] == x;
    assert LiveOf(items, prio)[j] == Live(x, prio);
    i := |Flatten(reqs[..k])| + j;
  }

  // ---- Runs ----

  datatype Op = Insert(req: TuneReq, mode: Mode) | Remove(k: nat, mode: Mode)

  datatype State = State(table: Table, reqs: seq<TuneReq>)

  // One request inserted or removed. A request none of whose entries is taken
  // is refused and does not become live.
  ghost function Step(ctx: Ctx, st: State, op: Op): (r: State)
    requires Shape(ctx, st.table)
    ensures Shape(ctx, r.table)
  {
    match op
    case Insert(req, mode) =>
      if FreshRequest(Flatten(st.reqs), req.items) && Level(req.prio) then
        State(InsertAll(ctx, mode, st.table, req.items, req.prio),
              if Accepted(ctx, req.items, req.prio) == 0 then st.reqs else st.reqs + [req])
      else st
    case Remove(k, mode) =>
      if k < |st.reqs| then
        State(RemoveAll(ctx, mode, st.table, st.reqs[k].items, st.reqs[k].prio), st.reqs[..k] + st.reqs[k + 1..])
      else st
  }

  ghost function Run(ctx: Ctx, ops: seq<Op>): (r: State)
    ensures Shape(ctx, r.table)
  {
    EmptyTableAgrees(ctx, {});
    if ops == [] then State(EmptyTable(ctx), [])
    else Step(ctx, Run(ctx, ops[..|ops| - 1]), ops[|ops| - 1])
  }

  ghost predicate Good(ctx: Ctx, st: State, modes: set<Mode>) {
    Agrees(ctx, st.table, Flatten(st.reqs)) && AllArbitrated(ctx, st.table, modes)
  }

  // A refused request leaves the table as it was.
  lemma {:induction false} RefusedChangesNothing(ctx: Ctx, mode: Mode, t: Table, items: seq<Item>, prio: int)
    requires Shape(ctx, t) && Accepted(ctx, items, prio) == 0
    ensures InsertAll(ctx, mode, t, items, prio) == t
  {
    if items != [] {
      RefusedChangesNothing(ctx, mode, t, items[..|items| - 1], prio);
    }
  }

  lemma InsertRequestGood(ctx: Ctx, mode: Mode, st: State, req: TuneReq, modes: set<Mode>)
    requires Good(ctx, st, modes) && mode in modes
    requires FreshRequest(Flatten(st.reqs), req.items) && Level(req.prio)
    ensures Good(ctx, State(InsertAll(ctx, mode, st.table, req.items, req.prio), st.reqs + [req]), modes)
  {
    InsertAllAgrees(ctx, mode, st.table, Flatten(st.reqs), req.items, req.prio);
    InsertAllKeepsArbitration(ctx, mode, st.table, Flatten(st.reqs), req.items, req.prio, modes);
    FlattenAppend(st.reqs, req);
  }

  lemma RemoveRequestGood(ctx: Ctx, mode: Mode, st: State, k: nat, modes: set<Mode>)
    requires Good(ctx, st, modes) && mode in modes && k < |st.reqs|
    ensures Good(ctx, State(RemoveAll(ctx, mode, st.table, st.reqs[k].items, st.reqs[k].prio),
                            st.reqs[..k] + st.reqs[k + 1..]), modes)
  {
    var req := st.reqs[k];
    var before, behind := Flatten(st.reqs[..k]), Flatten(st.reqs[k + 1..]);
    FlattenSplit(st.reqs, k);
    RemoveAllAgrees(ctx, mode, st.table, before, req.items, req.prio, behind);
    RemoveAllKeepsArbitration(ctx, mode, st.table, before, req.items, req.prio, behind, |req.items|, modes);
    assert req.items[..|req.items|] == req.items;
  }

  // The refinement theorem: after any run the table is the function of the live
  // requests it is meant to be, and every global list-managed resource that
  // admits all modes the run went through is arbitrated.
  lemma {:induction false} RunGood(ctx: Ctx, ops: seq<Op>, modes: set<Mode>)
    requires forall op :: op in ops ==> op.mode in modes
    ensures Good(ctx, Run(ctx, ops), modes)
  {
    if ops == [] {
      EmptyTableAgrees(ctx, modes);
    } else {
      var st, op := Run(ctx, ops[..|ops| - 1]), ops[|ops| - 1];
      RunGood(ctx, ops[..|ops| - 1], modes);
      match op
      case Insert(req, mode) =>
        if FreshRequest(Flatten(st.reqs), req.items) && Level(req.prio) {
          if Accepted(ctx, req.items, req.prio) == 0 {
            RefusedChangesNothing(ctx, mode, st.table, req.items, req.prio);
          } else {
            InsertRequestGood(ctx, mode, st, req, modes);
          }
        }
      case Remove(k, mode) =>
        if k < |st.reqs| {
          RemoveRequestGood(ctx, mode, st, k, modes);
        }
    }
  }

  // ---- The order of a list, in terms of the live entries ----

  ghost predicate InSlot(ctx: Ctx, live: seq<Live>, s: Slot, i: nat)
    requires i < |live|
  {
    Target(ctx, live[i].item.res, live[i].prio) == Some(s)
  }

  lemma {:induction false} HolderIndex(ctx: Ctx, live: seq<Live>, s: Slot, i: nat, j: nat) returns (a: nat, b: nat)
    requires DistinctItems(live) && i < |live| && j < |live| && InSlot(ctx, live, s, i) && InSlot(ctx, live, s, j)
    ensures a < |Holders(ctx, live, s)| && Holders(ctx, live, s)[a] == live[i].item
    ensures b < |Holders(ctx, live, s)| && Holders(ctx, live, s)[b] == live[j].item
    ensures a < b <==> i < j
    ensures a == b <==> i == j
  {
    var t := live[..|live| - 1];
    var h := Holders(ctx, t, s);
    if i < |t| && j < |t| {
      a, b := HolderIndex(ctx, t, s, i, j);
    } else if i < |t| {
      a, b := HolderIndex(ctx, t, s, i, i);
      b := |h|;
    } else if j < |t| {
      a, b := HolderIndex(ctx, t, s, j, j);
      a := |h|;
    } else {
      a, b := |h|, |h|;
    }
  }

  // Every slot list, after every history, is in the policy's order.
  lemma ListOrdered(ctx: Ctx, t: Table, live: seq<Live>, s: Slot, i: nat, j: nat)
    requires Agrees(ctx, t, live) && ValidSlot(ctx, s) && ListManaged(PolicyOf(ctx, s))
    requires i < |live| && j < |live| && i != j && InSlot(ctx, live, s, i) && InSlot(ctx, live, s, j)
    ensures Precedes(t.lists[s], live[i].item, live[j].item)
         <==> Outranks(PolicyOf(ctx, s), live[i].item.res, i, live[j].item.res, j)
  {
    assert SlotAgrees(ctx, t, live, s);
    var a, b := HolderIndex(ctx, live, s, i, j);
    HoldersNoDup(ctx, live, s);
    ArrangePrecedes(PolicyOf(ctx, s), Holders(ctx, live, s), a, b);
  }

  // ---- Who is in force ----

  ghost predicate OnRow(ctx: Ctx, live: seq<Live>, row: int, i: int) {
    0 <= i < |live| && Target(ctx, live[i].item.res, live[i].prio) == Some(Slot(row, live[i].prio))
  }

  // Entry i has the more important level, or the same level and the better
  // claim under the policy.
  ghost predicate Better(p: Policy, live: seq<Live>, i: nat, j: nat)
    requires i < |live| && j < |live|
  {
    live[i].prio < live[j].prio
      || (live[i].prio == live[j].prio && Outranks(p, live[i].item.res, i, live[j].item.res, j))
  }

  lemma OnRowIsListed(ctx: Ctx, t: Table, live: seq<Live>, row: int, i: nat)
    requires Agrees(ctx, t, live) && GlobalManaged(ctx, row) && OnRow(ctx, live, row, i)
    ensures live[i].item in LevelList(t, row, 0, live[i].prio)
    ensures FirstLevel(t, row, 0, 0) != -1 && FirstLevel(t, row, 0, 0) <= live[i].prio
  {
    var s := Slot(row, live[i].prio);
    assert live[i] in live;
    ListMembers(ctx, t, live, s, live[i].item);
    assert LevelList(t, row, 0, live[i].prio) == t.lists[s];
  }

  lemma HeadIsBest(ctx: Ctx, t: Table, live: seq<Live>, row: int) returns (w: nat)
    requires Agrees(ctx, t, live) && GlobalManaged(ctx, row) && FirstLevel(t, row, 0, 0) != -1
    ensures OnRow(ctx, live, row, w) && Winner(t, row, 0) == Some(live[w].item)
    ensures live[w].prio == FirstLevel(t, row, 0, 0)
    ensures forall j | OnRow(ctx, live, row, j) && j != w :: Better(ctx.confs[row].policy, live, w, j)
  {
    var p := FirstLevel(t, row, 0, 0);
    var s := Slot(row, p);
    var x := t.lists[s][0];
    ListMembers(ctx, t, live, s, x);
    var l :| l in live && l.item == x && Target(ctx, x.res, l.prio) == Some(s);
    w :| 0 <= w < |live| && live[w] == l;
    forall j | OnRow(ctx, live, row, j) && j != w
      ensures Better(ctx.confs[row].policy, live, w, j)
    {
      OnRowIsListed(ctx, t, live, row, j);
      if live[j].prio == p {
        var k :| 0 <= k < |t.lists[s]| && t.lists[s][k] == live[j].item;
        assert live[j].item != x;
        assert Precedes(t.lists[s], x, live[j].item);
        ListOrdered(ctx, t, live, s, w, j);
      }
    }
  }

  // The value in force is a function of the live entries and their arrival
  // order: it belongs to the one entry better than all others, and the default
  // is in force exactly when there is no entry.
  lemma InForceIsBest(ctx: Ctx, t: Table, live: seq<Live>, row: int, i: nat)
    requires Agrees(ctx, t, live) && GlobalManaged(ctx, row) && Arbitrated(t, row, 0)
    ensures InForce(t.log, row) == None <==> forall j :: !OnRow(ctx, live, row, j)
    ensures t.applied[row] == -1 <==> forall j :: !OnRow(ctx, live, row, j)
    ensures OnRow(ctx, live, row, i) ==>
              (InForce(t.log, row) == Some(live[i].item)
               <==> forall j | OnRow(ctx, live, row, j) && j != i :: Better(ctx.confs[row].policy, live, i, j))
    ensures OnRow(ctx, live, row, i) && InForce(t.log, row) == Some(live[i].item) ==> t.applied[row] == live[i].prio
  {
    if FirstLevel(t, row, 0, 0) == -1 {
      forall j ensures !OnRow(ctx, live, row, j) {
        if OnRow(ctx, live, row, j) {
          OnRowIsListed(ctx, t, live, row, j);
        }
      }
    } else {
      var w := HeadIsBest(ctx, t, live, row);
      assert OnRow(ctx, live, row, w);
      if OnRow(ctx, live, row, i) && i != w {
        assert live[i].item != live[w].item;
        assert Better(ctx.confs[row].policy, live, w, i);
      }
    }
  }

  // Whatever is in force has at least the importance of every live entry: while
  // an entry of system level is live, no third-party entry is in force.
  lemma SystemFirst(ctx: Ctx, t: Table, live: seq<Live>, row: int, i: nat) returns (w: nat)
    requires Agrees(ctx, t, live) && GlobalManaged(ctx, row) && Arbitrated(t, row, 0) && OnRow(ctx, live, row, i)
    ensures OnRow(ctx, live, row, w) && InForce(t.log, row) == Some(live[w].item)
    ensures live[w].prio <= live[i].prio
  {
    OnRowIsListed(ctx, t, live, row, i);
    w := HeadIsBest(ctx, t, live, row);
    if w != i {
      assert Better(ctx.confs[row].policy, live, w, i);
    }
  }

  // ---- Undo ----

  // Inserting a request and removing it with nothing in between restores every
  // list and every rank, and for the arbitrated resources the register and the
  // value in force.
  lemma InsertThenRemove(ctx: Ctx, m1: Mode, m2: Mode, t: Table, live: seq<Live>, items: seq<Item>, prio: int,
                         modes: set<Mode>)
    requires Agrees(ctx, t, live) && AllArbitrated(ctx, t, modes) && m1 in modes && m2 in modes
    requires FreshRequest(live, items) && Level(prio)
    ensures var r := RemoveAll(ctx, m2, InsertAll(ctx, m1, t, items, prio), items, prio);
      && r.lists == t.lists && r.ranks == t.ranks
      && forall row :: GlobalManaged(ctx, row) && modes <= ctx.confs[row].modes ==>
           r.applied[row] == t.applied[row] && InForce(r.log, row) == InForce(t.log, row)
  {
    var r := RemoveAll(ctx, m2, InsertAll(ctx, m1, t, items, prio), items, prio);
    InsertThenRemoveGood(ctx, m1, m2, t, live, items, prio, modes);
    AgreementIsUnique(ctx, t, r, live);
    forall row | GlobalManaged(ctx, row) && modes <= ctx.confs[row].modes
      ensures r.applied[row] == t.applied[row] && InForce(r.log, row) == InForce(t.log, row)
    {
      SameListsSameForce(t, r, row);
    }
  }

  lemma InsertThenRemoveGood(ctx: Ctx, m1: Mode, m2: Mode, t: Table, live: seq<Live>, items: seq<Item>, prio: int,
                             modes: set<Mode>)
    requires Agrees(ctx, t, live) && AllArbitrated(ctx, t, modes) && m1 in modes && m2 in modes
    requires FreshRequest(live, items) && Level(prio)
    ensures var r := RemoveAll(ctx, m2, InsertAll(ctx, m1, t, items, prio), items, prio);
      Agrees(ctx, r, live) && AllArbitrated(ctx, r, modes)
  {
    var u := InsertAll(ctx, m1, t, items, prio);
    InsertAllAgrees(ctx, m1, t, live, items, prio);
    InsertAllKeepsArbitration(ctx, m1, t, live, items, prio, modes);
    assert live + LiveOf(items, prio) + [] == live + LiveOf(items, prio);
    RemoveAllAgrees(ctx, m2, u, live, items, prio, []);
    RemoveAllKeepsArbitration(ctx, m2, u, live, items, prio, [], |items|, modes);
    assert items[..|items|] == items && live + [] == live;
  }

  lemma SameListsSameForce(t: Table, u: Table, row: int)
    requires t.lists == u.lists && Arbitrated(t, row, 0) && Arbitrated(u, row, 0)
    ensures t.applied[row] == u.applied[row] && InForce(t.log, row) == InForce(u.log, row)
  {
    assert forall q :: LevelList(u, row, 0, q) == LevelList(t, row, 0, q);
    FirstLevelIs(u, row, 0, FirstLevel(t, row, 0, 0));
  }

  // Two tables that agree with the same live entries have the same lists and ranks.
  lemma AgreementIsUnique(ctx: Ctx, t: Table, u: Table, live: seq<Live>)
    requires Agrees(ctx, t, live) && Agrees(ctx, u, live)
    ensures t.lists == u.lists && t.ranks == u.ranks
  {
    forall s | ValidSlot(ctx, s)
      ensures s in t.lists && s in u.lists && t.lists[s] == u.lists[s]
      ensures s in t.ranks && s in u.ranks && t.ranks[s] == u.ranks[s]
    {
      assert SlotAgrees(ctx, t, live, s) && SlotAgrees(ctx, u, live, s);
    }
    assert t.lists.Keys == u.lists.Keys && t.ranks.Keys == u.ranks.Keys;
  }

  // ---- Pass-through resources ----

  lemma AloneInSlot(ctx: Ctx, live: seq<Live>, x: Live, s: Slot)
    requires DistinctItems(live) && x in live
    ensures Holders(ctx, Without(live, x), s) == []
       <==> forall l :: l in live && l != x ==> Target(ctx, l.item.res, l.prio) != Some(s)
  {
    var rest := Without(live, x);
    var h := Holders(ctx, rest, s);
    WithoutKeepsDistinct(live, x);
    if h == [] {
      forall l | l in live && l != x ensures Target(ctx, l.item.res, l.prio) != Some(s) {
        HoldersMembers(ctx, rest, s, l.item);
      }
    } else {
      HoldersMembers(ctx, rest, s, h[0]);
      var l :| l in rest && l.item == h[0] && Target(ctx, l.item.res, l.prio) == Some(s);
      assert l in live && l != x;
    }
  }

  // The rank of a pass-through slot counts its live holders, and removing one
  // of them calls the tear callback exactly when it was the last.
  lemma TearOnLastHolder(ctx: Ctx, mode: Mode, t: Table, live: seq<Live>, x: Live, s: Slot)
    requires Agrees(ctx, t, live) && x in live && ValidSlot(ctx, s) && PolicyOf(ctx, s) == PassThrough
    requires Target(ctx, x.item.res, x.prio) == Some(s)
    ensures t.ranks[s] == |Holders(ctx, live, s)|
    ensures var r := RemoveOne(ctx, mode, t, x.item, x.prio);
      var alone := forall l :: l in live && l != x ==> Target(ctx, l.item.res, l.prio) != Some(s);
      && r.log == t.log + (if alone then [Tear(s.row, x.item)] else [])
      && r.ranks[s] == |Holders(ctx, Without(live, x), s)|
  {
    assert SlotAgrees(ctx, t, live, s);
    RemoveAgreesAt(ctx, mode, t, live, x, s);
    AloneInSlot(ctx, live, x, s);
    RemoveAt(ctx, mode, t, x.item, x.prio, s);
    assert t.log + [] == t.log;
  }

  // The tear callback has been called since.
  ghost predicate Torn(log: seq<Callback>, more: seq<Callback>) {
    exists k :: |log| <= k < |more| && more[k].Tear?
  }

  // As long as another live entry has the same slot, removing one tears nothing.
  lemma NotTornWhileShared(ctx: Ctx, mode: Mode, t: Table, live: seq<Live>, x: Live, y: Live, s: Slot)
    requires Agrees(ctx, t, live) && x in live && y in live && x != y
    requires ValidSlot(ctx, s) && PolicyOf(ctx, s) != PassThroughAppend
    requires Target(ctx, x.item.res, x.prio) == Some(s) && Target(ctx, y.item.res, y.prio) == Some(s)
    ensures !Torn(t.log, RemoveOne(ctx, mode, t, x.item, x.prio).log)
  {
    if PolicyOf(ctx, s) == PassThrough {
      TearOnLastHolder(ctx, mode, t, live, x, s);
    } else {
      var list := t.lists[s];
      ListMembers(ctx, t, live, s, x.item);
      ListMembers(ctx, t, live, s, y.item);
      WithoutMembers(list, x.item);
      if x.item == y.item {
        SameLive(live, x, y);
      }
      assert y.item in Without(list, x.item);
      RemoveOneListed(ctx, mode, t, x.item, x.prio, s, Without(list, x.item),
                      t.(lists := t.lists[s := Without(list, x.item)]));
    }
  }

  // A removed entry of the appending policy is always torn down.
  lemma AppendedIsTorn(ctx: Ctx, mode: Mode, t: Table, item: Item, prio: int, s: Slot)
    requires Shape(ctx, t) && Target(ctx, item.res, prio) == Some(s) && PolicyOf(ctx, s) == PassThroughAppend
    ensures var r := RemoveOne(ctx, mode, t, item, prio);
      && r.log == t.log + [Tear(s.row, item)] && InForce(r.log, s.row) == None
      && r.lists == t.lists && r.ranks == t.ranks && r.applied == t.applied
  {
  }

  // An inserted list-managed entry is applied exactly if it heads its list, no
  // more important level is applied and the mode allows it; the register then
  // has its level.
  lemma NewHeadApplied(ctx: Ctx, mode: Mode, t: Table, item: Item, prio: int, s: Slot)
    requires Shape(ctx, t) && Target(ctx, item.res, prio) == Some(s) && ListManaged(PolicyOf(ctx, s))
    ensures var r := InsertOne(ctx, mode, t, item, prio);
      && s in r.lists && r.lists[s] != [] && item in r.lists[s]
      && var wins := r.lists[s][0] == item && (t.applied[s.row] == -1 || prio <= t.applied[s.row])
                     && mode in ctx.confs[s.row].modes;
         && r.log == (if wins then t.log + [Apply(s.row, item)] else t.log)
         && r.applied == t.applied[s.row := if wins then prio else t.applied[s.row]]
  {
    PlaceMembers(PolicyOf(ctx, s), t.lists[s], item);
  }

  // Removing the head of a list that others are on applies the next one under
  // the same conditions; removing another entry applies nothing.
  lemma NextHeadApplied(ctx: Ctx, mode: Mode, t: Table, item: Item, prio: int, s: Slot)
    requires Shape(ctx, t) && Target(ctx, item.res, prio) == Some(s) && ListManaged(PolicyOf(ctx, s))
    requires item in t.lists[s] && |t.lists[s]| > 1
    ensures var r := RemoveOne(ctx, mode, t, item, prio);
      && s in r.lists && |r.lists[s]| == |t.lists[s]| - 1
      && var next := t.lists[s][0] == item && (t.applied[s.row] == -1 || prio <= t.applied[s.row])
                     && mode in ctx.confs[s.row].modes;
         && r.log == (if next then t.log + [Apply(s.row, t.lists[s][1])] else t.log)
         && r.applied == t.applied[s.row := if next then prio else t.applied[s.row]]
  {
    WithoutLength(t.lists[s], item);
  }

  lemma {:induction false} WithoutLength(s: seq<Item>, x: Item)
    requires x in s
    ensures |Without(s, x)| == |s| - 1
  {
    if s[0] != x {
      WithoutLength(s[1..], x);
    }
  }

  // ---- Requests with pass-through entries ----

  // Unless the mode forbids it, a pass-through entry has been applied since.
  ghost predicate PassedOn(ctx: Ctx, mode: Mode, from: nat, log: seq<Callback>, item: Item, prio: int)
    requires from <= |log|
  {
    match Target(ctx, item.res, prio)
    case None => true
    case Some(s) =>
      !ListManaged(PolicyOf(ctx, s)) && mode in ctx.confs[s.row].modes ==> Apply(s.row, item) in log[from..]
  }

  // Of all entries of a request.
  ghost predicate AllPassedOn(ctx: Ctx, mode: Mode, was: seq<Callback>, log: seq<Callback>, items: seq<Item>,
                              prio: int) {
    was <= log && forall x {:trigger PassedOn(ctx, mode, |was|, log, x, prio)} :: x in items ==>
                    PassedOn(ctx, mode, |was|, log, x, prio)
  }

  lemma {:induction false} InsertAllPassesOn(ctx: Ctx, mode: Mode, t: Table, items: seq<Item>, prio: int)
    requires Shape(ctx, t)
    ensures AllPassedOn(ctx, mode, t.log, InsertAll(ctx, mode, t, items, prio).log, items, prio)
  {
    if items != [] {
      var n := |items| - 1;
      var u, r := InsertAll(ctx, mode, t, items[..n], prio), InsertAll(ctx, mode, t, items, prio);
      InsertAllPassesOn(ctx, mode, t, items[..n], prio);
      LogGrows(ctx, mode, u, items[n], prio);
      forall x | x in items ensures PassedOn(ctx, mode, |t.log|, r.log, x, prio) {
        if x in items[..n] {
          assert PassedOn(ctx, mode, |t.log|, u.log, x, prio);
          StaysPassedOn(ctx, mode, |t.log|, u.log, r.log, x, prio);
        } else {
          assert x == items[n];
          StaysPassedOn(ctx, mode, |t.log|, r.log, r.log, x, prio);
        }
      }
    }
  }

  // What one insertion adds to the log.
  lemma LogGrows(ctx: Ctx, mode: Mode, t: Table, item: Item, prio: int)
    requires Shape(ctx, t)
    ensures var r := InsertOne(ctx, mode, t, item, prio);
      && t.log <= r.log
      && forall from: nat :: from <= |t.log| ==> PassedOn(ctx, mode, from, r.log, item, prio)
  {
    var r := InsertOne(ctx, mode, t, item, prio);
    var slot := Target(ctx, item.res, prio);
    if slot.Some? {
      if ListManaged(PolicyOf(ctx, slot.value)) {
        NewHeadApplied(ctx, mode, t, item, prio, slot.value);
      } else {
        PassThroughApplied(ctx, mode, t, item, prio, slot.value);
        assert Admits(ctx, slot.value.row, mode) ==> r.log[|t.log|] == Apply(slot.value.row, item);
      }
    }
  }

  lemma StaysPassedOn(ctx: Ctx, mode: Mode, from: nat, log: seq<Callback>, more: seq<Callback>, x: Item, prio: int)
    requires from <= |log| && log <= more && PassedOn(ctx, mode, from, log, x, prio)
    ensures PassedOn(ctx, mode, from, more, x, prio)
  {
    assert log[from..] <= more[from..];
  }

  // Over whole runs in modes that a pass-through resource allows: whatever is
  // live on it has been applied.
  lemma {:induction false} LivePassedOn(ctx: Ctx, ops: seq<Op>, modes: set<Mode>, l: Live, s: Slot)
    requires (forall op :: op in ops ==> op.mode in modes) && l in Flatten(Run(ctx, ops).reqs)
    requires Target(ctx, l.item.res, l.prio) == Some(s) && !ListManaged(PolicyOf(ctx, s))
    requires modes <= ctx.confs[s.row].modes
    ensures Apply(s.row, l.item) in Run(ctx, ops).table.log
  {
    var st, op := Run(ctx, ops[..|ops| - 1]), ops[|ops| - 1];
    assert op in ops;
    if l in Flatten(st.reqs) {
      LivePassedOn(ctx, ops[..|ops| - 1], modes, l, s);
    }
    match op
    case Insert(req, mode) =>
      InsertAllPassesOn(ctx, mode, st.table, req.items, req.prio);
      if l !in Flatten(st.reqs) {
        FlattenAppend(st.reqs, req);
        LiveIsItem(req.items, req.prio, l);
        assert PassedOn(ctx, mode, |st.table.log|, Run(ctx, ops).table.log, l.item, l.prio);
      }
    case Remove(k, mode) =>
      if k < |st.reqs| {
        RemoveAllLogGrows(ctx, mode, st.table, st.reqs[k].items, st.reqs[k].prio);
        FlattenSplit(st.reqs, k);
      }
  }

  lemma LiveIsItem(items: seq<Item>, prio: int, l: Live)
    requires l in LiveOf(items, prio)
    ensures l.item in items && l.prio == prio
  {
    var j :| 0 <= j < |items| && LiveOf(items, prio)[j] == l;
  }

  lemma {:induction false} RemoveAllLogGrows(ctx: Ctx, mode: Mode, t: Table, items: seq<Item>, prio: int)
    requires Shape(ctx, t)
    ensures t.log <= RemoveAll(ctx, mode, t, items, prio).log
  {
    if items != [] {
      RemoveAllLogGrows(ctx, mode, t, items[..|items| - 1], prio);
      RemovalLogGrows(ctx, mode, RemoveAll(ctx, mode, t, items[..|items| - 1], prio), items[|items| - 1], prio);
    }
  }

  lemma RemovalLogGrows(ctx: Ctx, mode: Mode, t: Table, item: Item, prio: int)
    requires Shape(ctx, t)
    ensures t.log <= RemoveOne(ctx, mode, t, item, prio).log
  {
    var slot := Target(ctx, item.res, prio);
    if slot.Some? && !ListManaged(PolicyOf(ctx, slot.value)) {
      RemoveOnePassThrough(ctx, mode, t, item, prio, slot.value);
    }
  }

  // ---- What is taken and what becomes live ----

  // A request is refused exactly if none of its entries has a slot.
  lemma {:induction false} AcceptedIff(ctx: Ctx, items: seq<Item>, prio: int)
    ensures Accepted(ctx, items, prio) == 0 <==> forall x :: x in items ==> Target(ctx, x.res, prio) == None
  {
    if items != [] {
      AcceptedIff(ctx, items[..|items| - 1], prio);
      assert forall x :: x in items <==> x in items[..|items| - 1] || x == items[|items| - 1];
    }
  }

  // A new request becomes live, as the last one, exactly if some entry has a
  // slot; otherwise nothing changes at all. A live one that is removed is gone.
  lemma GoesLiveIff(ctx: Ctx, st: State, req: TuneReq, mode: Mode)
    requires Shape(ctx, st.table) && FreshRequest(Flatten(st.reqs), req.items) && Level(req.prio)
    ensures var r := Step(ctx, st, Insert(req, mode));
      if exists x :: x in req.items && Target(ctx, x.res, req.prio).Some? then r.reqs == st.reqs + [req] else r == st
  {
    AcceptedIff(ctx, req.items, req.prio);
    if Accepted(ctx, req.items, req.prio) == 0 {
      RefusedChangesNothing(ctx, mode, st.table, req.items, req.prio);
    }
  }

  // ---- Falling back, for any kind of resource ----

  function Emptied(t: Table, s: Slot): Table {
    t.(lists := t.lists[s := []])
  }

  // Removing the last holder of a list is exactly the fallback scan over the
  // four levels of the same instance.
  lemma {:induction false} EmptyingFallsBack(ctx: Ctx, mode: Mode, t: Table, live: seq<Live>, x: Live, s: Slot,
                                             base: int)
    requires Agrees(ctx, t, live) && x in live && ValidSlot(ctx, s) && ListManaged(PolicyOf(ctx, s))
    requires Target(ctx, x.item.res, x.prio) == Some(s) && Holders(ctx, Without(live, x), s) == []
    requires base == SecondaryIndex(ctx, s.row, x.item.res, 0)
    ensures Shape(ctx, t) && Shape(ctx, Emptied(t, s))
    ensures RemoveOne(ctx, mode, t, x.item, x.prio)
         == Fallback(ctx, mode, Emptied(t, s), s.row, base, x.item)
  {
    assert SlotAgrees(ctx, t, live, s);
    RemoveAgreesAt(ctx, mode, t, live, x, s);
    RemoveAt(ctx, mode, t, x.item, x.prio, s);
  }

  // r is the table after a scan of the four levels of one instance: nothing
  // listed means torn down, otherwise the register names the first list and its
  // head is applied, if the current mode admits it.
  ghost predicate FellBack(log: seq<Callback>, r: Table, row: int, base: int, item: Item, admitted: bool)
    requires 0 <= row < |r.applied|
  {
    if forall q :: Level(q) ==> LevelList(r, row, base, q) == [] then
      r.applied[row] == -1 && r.log == log + [Tear(row, item)]
    else
      && Level(r.applied[row])
      && (forall q :: 0 <= q < r.applied[row] ==> LevelList(r, row, base, q) == [])
      && LevelList(r, row, base, r.applied[row]) != []
      && r.log == if admitted then log + [Apply(row, LevelList(r, row, base, r.applied[row])[0])] else log
  }

  lemma LevelListEmpty(ctx: Ctx, t: Table, live: seq<Live>, row: int, base: int, q: int)
    requires Agrees(ctx, t, live) && ValidSlot(ctx, Slot(row, base + q))
         && ListManaged(PolicyOf(ctx, Slot(row, base + q)))
    ensures LevelList(t, row, base, q) == [] <==> Holders(ctx, live, Slot(row, base + q)) == []
  {
    var s := Slot(row, base + q);
    assert SlotAgrees(ctx, t, live, s);
    ArrangeMembers(PolicyOf(ctx, s), Holders(ctx, live, s));
  }

  // When a removal empties its list, the head of the highest non-empty level of
  // the same instance is applied again unless the mode forbids it, and only if
  // all four levels of that instance are empty is the resource torn down.
  lemma {:induction false} FallbackWithinInstance(ctx: Ctx, mode: Mode, t: Table, live: seq<Live>, x: Live, s: Slot,
                                                  base: int)
    requires Agrees(ctx, t, live) && x in live && ValidSlot(ctx, s) && ListManaged(PolicyOf(ctx, s))
    requires Target(ctx, x.item.res, x.prio) == Some(s) && Holders(ctx, Without(live, x), s) == []
    requires base == s.col - x.prio
    ensures var r := RemoveOne(ctx, mode, t, x.item, x.prio);
      Shape(ctx, r) && FellBack(t.log, r, s.row, base, x.item, Admits(ctx, s.row, mode))
  {
    assert base == SecondaryIndex(ctx, s.row, x.item.res, 0) by {
      InstanceIsWhole(ctx, x.item.res, x.prio, s);
    }
    EmptyingFallsBack(ctx, mode, t, live, x, s, base);
    FallbackResult(ctx, mode, Emptied(t, s), s.row, base, x.item, RemoveOne(ctx, mode, t, x.item, x.prio));
  }

  // Which of those levels are empty is decided by the remaining live entries.
  lemma InstanceLevels(ctx: Ctx, mode: Mode, t: Table, live: seq<Live>, x: Live, s: Slot, base: int)
    requires Agrees(ctx, t, live) && x in live && ValidSlot(ctx, s) && ListManaged(PolicyOf(ctx, s))
    requires forall q :: Level(q) ==> ValidSlot(ctx, Slot(s.row, base + q))
    ensures forall q :: Level(q) ==>
              (LevelList(RemoveOne(ctx, mode, t, x.item, x.prio), s.row, base, q) == []
               <==> Holders(ctx, Without(live, x), Slot(s.row, base + q)) == [])
  {
    RemoveAgrees(ctx, mode, t, live, x);
    var r, rest := RemoveOne(ctx, mode, t, x.item, x.prio), Without(live, x);
    forall q | Level(q)
      ensures LevelList(r, s.row, base, q) == [] <==> Holders(ctx, rest, Slot(s.row, base + q)) == []
    {
      LevelListEmpty(ctx, r, rest, s.row, base, q);
    }
  }

  lemma {:induction false} FallbackResult(ctx: Ctx, mode: Mode, t: Table, row: int, base: int, item: Item, r: Table)
    requires Shape(ctx, t) && 0 <= row < |ctx.confs| && r == Fallback(ctx, mode, t, row, base, item)
    ensures Shape(ctx, r) && FellBack(t.log, r, row, base, item, Admits(ctx, row, mode))
  {
    assert forall q :: LevelList(t, row, base, q) == LevelList(r, row, base, q);
    var p := FirstLevel(t, row, base, 0);
    assert p != -1 ==> LevelList(r, row, base, p) != [];
  }
}
