// Every step of the request lifecycle keeps its invariants.

module LifecycleSafety {
  import opened Types
  import opened ListOrder
  import opened CocoSpec
  import opened RequestManagers
  import opened Lifecycle

  ghost predicate Kinds(s: Sys) {
    KindInv(s.mem, s.flights, s.tabled, s.consumer)
  }

  ghost predicate Identities(cfg: Config, s: Sys) {
    IdentityInv(cfg, s.mem, s.issued, s.nextItem, s.ownerOf)
  }

  ghost predicate Core(cfg: Config, s: Sys) {
    MemoryInv(s) && Kinds(s) && Identities(cfg, s) && MapInv(s)
  }

  // ---- A step moves at most two objects ----

  // Nothing about object p differs between s and u.
  ghost predicate SameSpot(s: Sys, u: Sys, p: nat) {
    && (p in s.mem <==> p in u.mem) && (p in s.mem ==> u.mem[p] == s.mem[p])
    && (p in s.flights <==> p in u.flights) && (p in s.flights ==> s.flights[p] == u.flights[p])
    && s.queue[p] == u.queue[p]
    && (p in s.tabled <==> p in u.tabled)
    && (p in s.frees <==> p in u.frees)
    && (s.consumer == Popped(p) <==> u.consumer == Popped(p))
    && (s.consumer == Accepting(p) <==> u.consumer == Accepting(p))
    && (s.consumer == Marked(p) <==> u.consumer == Marked(p))
    && (s.consumer == Dropping(p) <==> u.consumer == Dropping(p))
    && (s.consumer.Taking? && s.consumer.o == p <==> u.consumer.Taking? && u.consumer.o == p)
    && (s.consumer.Taken? && s.consumer.o == p <==> u.consumer.Taken? && u.consumer.o == p)
    && (s.consumer.Taken? && s.consumer.target == p <==> u.consumer.Taken? && u.consumer.target == p)
  }

  // Requests other than a and b keep their entries; an entry may be new only
  // for a, under its own handle.
  ghost predicate SameEntries(s: Sys, u: Sys, a: nat, b: nat) {
    && (forall h :: h in s.rm.active && s.rm.active[h].req.obj != a && s.rm.active[h].req.obj != b ==> h in u.rm.active)
    && (forall h :: h in u.rm.active ==>
          || (&& h in s.rm.active && u.rm.active[h].req == s.rm.active[h].req
              && (s.rm.active[h].req.obj != a && s.rm.active[h].req.obj != b ==> u.rm.active[h] == s.rm.active[h]))
          || (a in u.mem && u.mem[a].kind == Tune && u.rm.active[h].req == u.mem[a] && h == u.mem[a].handle))
  }

  ghost predicate Moved(s: Sys, u: Sys, a: nat, b: nat) {
    && (forall p {:trigger SameSpot(s, u, p)} :: p != a && p != b ==> SameSpot(s, u, p))
    && SameEntries(s, u, a, b)
  }

  // All is well with object p.
  ghost predicate Local(u: Sys, p: nat) {
    && PlaceOk(u, p)
    && (p in u.mem ==> TuneMapped(u, p))
    && (p in u.mem && u.mem[p].kind == Tune && u.mem[p].handle in u.rm.active
        && u.rm.active[u.mem[p].handle].req.obj == p
        ==> EntryOk(u, u.mem[p].handle))
  }

  // So only the moved objects need looking at.
  lemma MoveKeepsMap(cfg: Config, s: Sys, u: Sys, a: nat, b: nat)
    requires Core(cfg, s) && Moved(s, u, a, b) && Local(u, a) && Local(u, b) && Identities(cfg, u)
    requires forall p :: p in s.mem ==> p in u.mem && u.mem[p] == s.mem[p]
    ensures MapInv(u) && forall p {:trigger PlaceOk(u, p)} :: PlaceOk(u, p)
  {
    forall h | h in u.rm.active ensures EntryOk(u, h) {
      var p := u.rm.active[h].req.obj;
      assert h in s.rm.active ==> EntryOk(s, h);
      assert p != a && p != b ==> SameSpot(s, u, p);
    }
    forall p | p in u.mem ensures TuneMapped(u, p) {
      if p != a && p != b && u.mem[p].kind == Tune {
        assert SameSpot(s, u, p) && TuneMapped(s, p);
        var h := u.mem[p].handle;
        assert h in u.rm.active ==> EntryOk(u, h);
        assert h in s.rm.active ==> EntryOk(s, h);
        var q := if h in u.rm.active then u.rm.active[h].req.obj else if h in s.rm.active then s.rm.active[h].req.obj
          else p;
        assert q != p ==> Apart(u.mem[p], u.mem[q]);
      }
    }
    forall p ensures PlaceOk(u, p) {
      assert PlaceOk(s, p);
      assert p != a && p != b ==> SameSpot(s, u, p);
    }
  }

  // ---- Step by step ----

  lemma NewTuneIdentities(cfg: Config, s: Sys, r: Req, items: nat)
    requires Identities(cfg, s)
    ensures Identities(cfg, DoNewTune(cfg, s, r, items))
  {
    var u := DoNewTune(cfg, s, r, items);
    forall o | o in u.mem
      ensures ItemsOk(u.mem[o], u.nextItem)
      ensures u.mem[o].kind == Tune ==> TuneOk(cfg, u.mem[o], u.issued, u.ownerOf)
    {
      if o in s.mem {
        assert ItemsOk(s.mem[o], s.nextItem);
        assert s.mem[o].kind == Tune ==> TuneOk(cfg, s.mem[o], s.issued, s.ownerOf);
      }
    }
    forall a, b | a in u.mem && b in u.mem && a != b ensures Apart(u.mem[a], u.mem[b]) {
      if a in s.mem && b in s.mem {
        assert Apart(s.mem[a], s.mem[b]);
      }
      assert ItemsOk(u.mem[a], u.nextItem);
      if a in s.mem {
        assert ItemsOk(s.mem[a], s.nextItem);
        assert s.mem[a].kind == Tune ==> TuneOk(cfg, s.mem[a], s.issued, s.ownerOf);
      }
      if b in s.mem {
        assert ItemsOk(s.mem[b], s.nextItem);
        assert s.mem[b].kind == Tune ==> TuneOk(cfg, s.mem[b], s.issued, s.ownerOf);
      }
    }
  }

  lemma BroughtIdentities(cfg: Config, s: Sys, r: Req, stage: Stage)
    requires Identities(cfg, s) && r.kind != Tune && r.obj !in s.mem && r.items == []
    ensures Identities(cfg, Brought(s, r, stage))
  {
    var u := Brought(s, r, stage);
    forall o | o in u.mem
      ensures ItemsOk(u.mem[o], u.nextItem)
      ensures u.mem[o].kind == Tune ==> TuneOk(cfg, u.mem[o], u.issued, u.ownerOf)
    {
      if o in s.mem {
        assert ItemsOk(s.mem[o], s.nextItem);
        assert s.mem[o].kind == Tune ==> TuneOk(cfg, s.mem[o], s.issued, s.ownerOf);
      }
    }
    forall a, b | a in u.mem && b in u.mem && a != b ensures Apart(u.mem[a], u.mem[b]) {
      if a in s.mem && b in s.mem {
        assert Apart(s.mem[a], s.mem[b]);
      }
    }
  }

  lemma NewThreadIdentities(cfg: Config, s: Sys, pid: int, tid: int)
    requires Identities(cfg, s)
    ensures Identities(cfg, DoNewThread(s, pid, tid))
  {
    var u := DoNewThread(s, pid, tid);
    forall o | o in u.mem
      ensures ItemsOk(u.mem[o], u.nextItem)
      ensures u.mem[o].kind == Tune ==> TuneOk(cfg, u.mem[o], u.issued, u.ownerOf)
    {
      assert ItemsOk(s.mem[o], s.nextItem);
      assert s.mem[o].kind == Tune ==> TuneOk(cfg, s.mem[o], s.issued, s.ownerOf);
    }
    forall a, b | a in u.mem && b in u.mem && a != b ensures Apart(u.mem[a], u.mem[b]) {
      assert Apart(s.mem[a], s.mem[b]);
    }
  }

  lemma NewThreadCore(cfg: Config, s: Sys, pid: int, tid: int)
    requires Core(cfg, s)
    ensures Core(cfg, DoNewThread(s, pid, tid))
  {
    var u := DoNewThread(s, pid, tid);
    NewThreadIdentities(cfg, s, pid, tid);
    forall o ensures PlaceOk(u, o) {
      assert PlaceOk(s, o);
    }
    forall h | h in u.rm.active ensures EntryOk(u, h) {
      assert EntryOk(s, h);
    }
    forall o | o in u.mem ensures TuneMapped(u, o) {
      assert TuneMapped(s, o);
    }
  }

  lemma NewTuneCore(cfg: Config, s: Sys, r: Req, items: nat)
    requires Core(cfg, s)
    ensures Core(cfg, DoNewTune(cfg, s, r, items))
  {
    var u := DoNewTune(cfg, s, r, items);
    NewTuneIdentities(cfg, s, r, items);
    assert PlaceOk(s, r.obj);
    assert r.handle in s.rm.active ==>
        EntryOk(s, r.handle) && TuneOk(cfg, s.mem[s.rm.active[r.handle].req.obj], s.issued, s.ownerOf);
    MoveKeepsMap(cfg, s, u, r.obj, r.obj);
  }

  lemma DiscardedCore(cfg: Config, s: Sys, rm: Rm, o: nat)
    requires Core(cfg, s)
    requires o in s.flights && s.flights[o] != Registered && rm.active == s.rm.active
    ensures Core(cfg, Discarded(s, rm, o))
  {
    var u := Discarded(s, rm, o);
    assert PlaceOk(s, o);
    assert o in s.mem ==> TuneMapped(s, o) && (s.mem[o].handle in s.rm.active ==> EntryOk(s, s.mem[o].handle));
    MoveKeepsMap(cfg, s, u, o, o);
  }

  lemma AdmittedCore(cfg: Config, s: Sys, rm: Rm, o: nat)
    requires Core(cfg, s)
    requires o in s.flights && s.flights[o] == Verified
    requires s.mem[o].handle !in s.rm.active
         && rm.active == s.rm.active[s.mem[o].handle := Entry(s.mem[o], false, false)]
    ensures Core(cfg, Staged(s, rm, o, Registered))
  {
    var u := Staged(s, rm, o, Registered);
    assert PlaceOk(s, o);
    assert TuneMapped(s, o);
    MoveKeepsMap(cfg, s, u, o, o);
  }

  lemma RestagedCore(cfg: Config, s: Sys, o: nat, stage: Stage)
    requires Core(cfg, s)
    requires o in s.flights && s.mem[o].kind != Tune && StageFits(stage, s.mem[o].kind)
    ensures Core(cfg, Staged(s, s.rm, o, stage))
  {
    var u := Staged(s, s.rm, o, stage);
    assert PlaceOk(s, o);
    assert o in s.mem ==> TuneMapped(s, o) && (s.mem[o].handle in s.rm.active ==> EntryOk(s, s.mem[o].handle));
    MoveKeepsMap(cfg, s, u, o, o);
  }

  lemma QueuedCore(cfg: Config, s: Sys, o: nat)
    requires Core(cfg, s)
    requires o in s.flights && Enqueueable(s.flights[o])
    ensures Core(cfg, Queued(s, o))
  {
    var u := Queued(s, o);
    assert PlaceOk(s, o);
    assert o in s.mem ==> TuneMapped(s, o) && (s.mem[o].handle in s.rm.active ==> EntryOk(s, s.mem[o].handle));
    MoveKeepsMap(cfg, s, u, o, o);
  }

  lemma LostCore(cfg: Config, s: Sys, o: nat)
    requires Core(cfg, s)
    requires o in s.flights && s.mem[o].kind != Tune
    ensures Core(cfg, Landed(s, o))
  {
    var u := Landed(s, o);
    assert PlaceOk(s, o);
    assert o in s.mem ==> TuneMapped(s, o) && (s.mem[o].handle in s.rm.active ==> EntryOk(s, s.mem[o].handle));
    MoveKeepsMap(cfg, s, u, o, o);
  }

  lemma BroughtCore(cfg: Config, s: Sys, r: Req, stage: Stage)
    requires Core(cfg, s)
    requires r.kind != Tune && r.obj !in s.mem && r.items == [] && StageFits(stage, r.kind)
    ensures Core(cfg, Brought(s, r, stage))
  {
    var u := Brought(s, r, stage);
    BroughtIdentities(cfg, s, r, stage);
    assert PlaceOk(s, r.obj);
    assert r.handle in s.rm.active ==> EntryOk(s, r.handle);
    MoveKeepsMap(cfg, s, u, r.obj, r.obj);
  }

  lemma DequeuedCore(cfg: Config, s: Sys, o: nat, c: Consumer)
    requires Core(cfg, s)
    requires s.consumer == Idle && s.queue[o] > 0
         && (c == Popped(o) || (c == Idle && o in s.mem && s.mem[o].kind != Tune))
    ensures Core(cfg, Dequeued(s, o, c))
  {
    var u := Dequeued(s, o, c);
    assert PlaceOk(s, o);
    assert o in s.mem ==> TuneMapped(s, o) && (s.mem[o].handle in s.rm.active ==> EntryOk(s, s.mem[o].handle));
    MoveKeepsMap(cfg, s, u, o, o);
  }

  lemma ReadTuneCore(cfg: Config, s: Sys, o: nat)
    requires Core(cfg, s)
    requires s.consumer == Popped(o) && s.mem[o].kind == Tune
    ensures Core(cfg, ReadTune(s, o))
  {
    var u := ReadTune(s, o);
    assert PlaceOk(s, o);
    assert o in s.mem ==> TuneMapped(s, o) && (s.mem[o].handle in s.rm.active ==> EntryOk(s, s.mem[o].handle));
    MoveKeepsMap(cfg, s, u, o, o);
  }

  lemma ReadUntuneCore(cfg: Config, s: Sys, o: nat)
    requires Core(cfg, s)
    requires s.consumer == Popped(o) && s.mem[o].kind == Untune
    ensures Core(cfg, ReadUntune(s, o))
  {
    var u := ReadUntune(s, o);
    assert PlaceOk(s, o);
    assert o in s.mem ==> TuneMapped(s, o) && (s.mem[o].handle in s.rm.active ==> EntryOk(s, s.mem[o].handle));
    MoveKeepsMap(cfg, s, u, o, o);
  }

  lemma ReadRetuneCore(cfg: Config, s: Sys, o: nat)
    requires Core(cfg, s)
    requires s.consumer == Popped(o) && s.mem[o].kind == Retune
    ensures Core(cfg, Freed(s.(consumer := Idle), o))
  {
    var u := Freed(s.(consumer := Idle), o);
    assert PlaceOk(s, o);
    assert o in s.mem ==> TuneMapped(s, o) && (s.mem[o].handle in s.rm.active ==> EntryOk(s, s.mem[o].handle));
    MoveKeepsMap(cfg, s, u, o, o);
  }

  lemma MarkCompleteCore(cfg: Config, s: Sys, o: nat)
    requires Core(cfg, s)
    requires s.consumer == Accepting(o)
    ensures Core(cfg, DoMarkComplete(s))
  {
    var u := DoMarkComplete(s);
    assert PlaceOk(s, o);
    assert o in s.mem ==> TuneMapped(s, o) && (s.mem[o].handle in s.rm.active ==> EntryOk(s, s.mem[o].handle));
    MoveKeepsMap(cfg, s, u, o, o);
  }

  lemma RefusedCore(cfg: Config, s: Sys, o: nat)
    requires Core(cfg, s)
    requires s.consumer == Marked(o)
    ensures Core(cfg, s.(consumer := Dropping(o)))
  {
    var u := s.(consumer := Dropping(o));
    assert PlaceOk(s, o);
    assert o in s.mem ==> TuneMapped(s, o) && (s.mem[o].handle in s.rm.active ==> EntryOk(s, s.mem[o].handle));
    MoveKeepsMap(cfg, s, u, o, o);
  }

  lemma SettledCore(cfg: Config, s: Sys, o: nat)
    requires Core(cfg, s)
    requires s.consumer == Marked(o)
    ensures Core(cfg, Settled(s, o))
  {
    var u := Settled(s, o);
    assert PlaceOk(s, o);
    assert o in s.mem ==> TuneMapped(s, o) && (s.mem[o].handle in s.rm.active ==> EntryOk(s, s.mem[o].handle));
    MoveKeepsMap(cfg, s, u, o, o);
  }

  lemma DropCore(cfg: Config, s: Sys, o: nat)
    requires Core(cfg, s)
    requires s.consumer == Dropping(o)
    ensures Core(cfg, DoDrop(s))
  {
    var u := DoDrop(s);
    assert PlaceOk(s, o);
    assert o in s.mem ==> TuneMapped(s, o) && (s.mem[o].handle in s.rm.active ==> EntryOk(s, s.mem[o].handle));
    MoveKeepsMap(cfg, s, u, o, o);
  }

  lemma {:induction false} TakeCore(cfg: Config, ctx: Ctx, s: Sys, mode: Mode, o: nat, t: nat)
    requires Core(cfg, s)
    requires s.consumer == Taking(o, t) && Shape(ctx, s.table)
    ensures Core(cfg, DoTake(ctx, s, mode))
  {
    TakeMoves(cfg, ctx, s, mode, o, t);
    MoveKeepsMap(cfg, s, DoTake(ctx, s, mode), o, t);
  }

  // What it does to the untune and its target.
  lemma {:induction false} TakeMoves(cfg: Config, ctx: Ctx, s: Sys, mode: Mode, o: nat, t: nat)
    requires Core(cfg, s)
    requires s.consumer == Taking(o, t) && Shape(ctx, s.table)
    ensures var u := DoTake(ctx, s, mode);
      Moved(s, u, o, t) && Local(u, o) && Local(u, t) && Kinds(u) && NoDup(u.tabled)
  {
    assert PlaceOk(s, o) && PlaceOk(s, t);
    assert TuneMapped(s, t) && EntryOk(s, s.mem[t].handle);
    WithoutMembers(s.tabled, t);
  }

  lemma ReleaseCore(cfg: Config, s: Sys, o: nat, t: nat)
    requires Core(cfg, s)
    requires s.consumer == Taken(o, t)
    ensures Core(cfg, DoRelease(s))
  {
    var u := DoRelease(s);
    assert PlaceOk(s, o);
    assert PlaceOk(s, t);
    assert o in s.mem ==> TuneMapped(s, o) && (s.mem[o].handle in s.rm.active ==> EntryOk(s, s.mem[o].handle));
    assert t in s.mem ==> TuneMapped(s, t) && (s.mem[t].handle in s.rm.active ==> EntryOk(s, s.mem[t].handle));
    MoveKeepsMap(cfg, s, u, o, t);
  }
}
