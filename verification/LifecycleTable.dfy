// The table along a run of the lifecycle: it always holds exactly the tunes the
// consumer has inserted and not yet taken out, and it is always arbitrated.

module LifecycleTable {
  import opened Types
  import opened ListOrder
  import opened CocoSpec
  import opened LiveSet
  import opened Coordinator
  import opened RequestManagers
  import opened Lifecycle
  import opened LifecycleSafety

  // A step that touches neither the table nor the list of tabled tunes.
  lemma TableUntouched(ctx: Ctx, s: Sys, u: Sys, modes: set<Mode>)
    requires TableInv(ctx, s, modes) && u.table == s.table && u.tabled == s.tabled
    requires forall o :: o in s.mem ==> o in u.mem && u.mem[o] == s.mem[o]
    ensures TableInv(ctx, u, modes)
  {
    assert AsTunes(u.mem, u.tabled) == AsTunes(s.mem, s.tabled);
  }

  // The entries of a tune that is not tabled are new to the table.
  lemma NewToTable(cfg: Config, ctx: Ctx, s: Sys, o: nat, modes: set<Mode>)
    requires Core(cfg, s) && TableInv(ctx, s, modes) && o in s.mem && o !in s.tabled
    ensures FreshRequest(Flatten(AsTunes(s.mem, s.tabled)), s.mem[o].items)
  {
    var reqs := AsTunes(s.mem, s.tabled);
    assert ItemsOk(s.mem[o], s.nextItem);
    forall x, l | x in s.mem[o].items && l in Flatten(reqs) ensures l.item != x {
      FlattenMembers(reqs, l);
      var i :| 0 <= i < |reqs| && l.item in reqs[i].items && l.prio == reqs[i].prio;
      assert s.tabled[i] in s.tabled;
      assert Apart(s.mem[o], s.mem[s.tabled[i]]);
    }
  }

  lemma InsertTable(cfg: Config, ctx: Ctx, s: Sys, mode: Mode, o: nat, modes: set<Mode>)
    requires Core(cfg, s) && TableInv(ctx, s, modes) && mode in modes && s.consumer == Marked(o)
    ensures TableInv(ctx, DoInsert(ctx, s, mode), modes)
  {
    var r, reqs := s.mem[o], AsTunes(s.mem, s.tabled);
    var u := DoInsert(ctx, s, mode);
    assert PlaceOk(s, o);
    assert TuneOk(cfg, r, s.issued, s.ownerOf);
    NewToTable(cfg, ctx, s, o, modes);
    if Accepted(ctx, r.items, r.prio) == 0 {
      RefusedChangesNothing(ctx, mode, s.table, r.items, r.prio);
      TableUntouched(ctx, s, u, modes);
    } else {
      InsertRequestGood(ctx, mode, State(s.table, reqs), AsTune(r), modes);
      assert AsTunes(u.mem, u.tabled) == reqs + [AsTune(r)];
    }
  }

  // The tunes left when the k-th one is taken out.
  lemma TakenTunes(mem: map<nat, Req>, os: seq<nat>, k: nat)
    requires k < |os| && NoDup(os) && forall i :: 0 <= i < |os| ==> os[i] in mem
    ensures forall i :: 0 <= i < |Without(os, os[k])| ==> Without(os, os[k])[i] in mem
    ensures AsTunes(mem, Without(os, os[k])) == AsTunes(mem, os)[..k] + AsTunes(mem, os)[k + 1..]
  {
    WithoutAt(os, k);
  }

  lemma TakeTable(cfg: Config, ctx: Ctx, s: Sys, mode: Mode, o: nat, t: nat, modes: set<Mode>)
    requires Core(cfg, s) && TableInv(ctx, s, modes) && mode in modes && s.consumer == Taking(o, t)
    ensures TableInv(ctx, DoTake(ctx, s, mode), modes)
  {
    var reqs := AsTunes(s.mem, s.tabled);
    var k :| 0 <= k < |s.tabled| && s.tabled[k] == t;
    RemoveRequestGood(ctx, mode, State(s.table, reqs), k, modes);
    TakenTunes(s.mem, s.tabled, k);
    TakenIs(ctx, s, mode, o, t);
  }

  lemma TakenIs(ctx: Ctx, s: Sys, mode: Mode, o: nat, t: nat)
    requires s.consumer == Taking(o, t) && t in s.mem && Shape(ctx, s.table)
    ensures DoTake(ctx, s, mode).mem == s.mem && DoTake(ctx, s, mode).tabled == Without(s.tabled, t)
    ensures DoTake(ctx, s, mode).table == RemoveAll(ctx, mode, s.table, s.mem[t].items, s.mem[t].prio)
  {
  }
}
