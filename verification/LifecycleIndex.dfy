// Admission and the per-thread index along a run of the lifecycle: each handle
// set holds exactly the active handles of its thread, the number of active
// requests stays within its cap, and no third-party thread has the same demand
// active twice.

module LifecycleIndex {
  import opened Types
  import opened LruCaches
  import opened ClientData
  import opened RequestManagers
  import opened Lifecycle
  import opened LifecycleSafety

  // Thread t has handle h on record.
  predicate Recorded(rm: Rm, t: int, h: int) {
    t in rm.handles && h in rm.handles[t]
  }

  ghost predicate Indexed(rm: Rm) {
    && (forall h {:trigger h in rm.active} :: h in rm.active ==> Recorded(rm, rm.active[h].req.tid, h))
    && (forall t, h {:trigger Recorded(rm, t, h)} :: Recorded(rm, t, h) ==> h in rm.active && rm.active[h].req.tid == t)
  }

  predicate ThirdParty(cfg: Config, r: Req) {
    LevelOf(cfg, r.pid) == Some(PermissionThirdParty)
  }

  // Two active requests of one third-party thread that ask for the same.
  ghost predicate Twins(cfg: Config, rm: Rm, a: int, b: int)
    requires a in rm.active && b in rm.active
  {
    var q, r := rm.active[a].req, rm.active[b].req;
    q.tid == r.tid && (ThirdParty(cfg, q) || ThirdParty(cfg, r)) && SameDemand(q, r)
  }

  ghost predicate NoTwins(cfg: Config, rm: Rm) {
    forall a, b {:trigger Twins(cfg, rm, a, b)} :: a in rm.active && b in rm.active && a != b ==> !Twins(cfg, rm, a, b)
  }

  ghost predicate RmInv(cfg: Config, rm: Rm) {
    && Indexed(rm) && NoTwins(cfg, rm)
    && |rm.active| <= cfg.maxActive
    && Contained(rm.cache)
  }

  // Every thread has an entry, and a verified tune belongs to one.
  ghost predicate KnownThreads(s: Sys) {
    && (forall t :: t in s.ownerOf <==> t in s.rm.handles)
    && (forall o :: o in s.flights && s.flights[o] == Verified && o in s.mem ==> s.mem[o].tid in s.rm.handles)
  }

  ghost predicate IndexInv(cfg: Config, s: Sys) {
    RmInv(cfg, s.rm) && KnownThreads(s)
  }

  // ---- What the operations of the request manager keep ----

  lemma AdmissionKeepsIndex(cfg: Config, rm: Rm, req: Req)
    requires RmInv(cfg, rm) && req.handle !in rm.active && req.tid in rm.handles
    ensures Indexed(CheckAndAdd(cfg, rm, req).rm)
  {
    var u := CheckAndAdd(cfg, rm, req).rm;
    forall t, h | Recorded(u, t, h) ensures h in u.active && u.active[h].req.tid == t {
      assert h != req.handle || t != req.tid ==> Recorded(rm, t, h);
    }
    forall h | h in u.active ensures Recorded(u, u.active[h].req.tid, h) {
      assert h in rm.active ==> Recorded(rm, rm.active[h].req.tid, h);
    }
  }

  // The duplicate check looks at every active request of the thread.
  lemma AdmissionKeepsTwinsOut(cfg: Config, rm: Rm, req: Req)
    requires RmInv(cfg, rm) && req.handle !in rm.active
    requires forall h :: h in rm.active && rm.active[h].req.tid == req.tid ==> rm.active[h].req.pid == req.pid
    ensures NoTwins(cfg, CheckAndAdd(cfg, rm, req).rm)
    ensures |CheckAndAdd(cfg, rm, req).rm.active| <= cfg.maxActive
  {
    var u := CheckAndAdd(cfg, rm, req).rm;
    forall a, b | a in u.active && b in u.active && a != b ensures !Twins(cfg, u, a, b) {
      if a in rm.active && b in rm.active {
        assert !Twins(cfg, rm, a, b);
      } else {
        var h := if a in rm.active then a else b;
        assert h in rm.active && Recorded(rm, rm.active[h].req.tid, h);
        assert rm.active[h].req.tid == req.tid ==> !Clashes(cfg, rm, req, h);
      }
    }
  }

  lemma ForgettingKeepsIndex(cfg: Config, rm: Rm, req: Req)
    requires RmInv(cfg, rm) && req.handle in rm.active && rm.active[req.handle].req == req
    ensures RmInv(cfg, Forget(rm, req))
  {
    var u := Forget(rm, req);
    forall t, h | Recorded(u, t, h) ensures h in u.active && u.active[h].req.tid == t {
      assert Recorded(rm, t, h);
    }
    forall h | h in u.active ensures Recorded(u, u.active[h].req.tid, h) {
      assert h in rm.active && Recorded(rm, rm.active[h].req.tid, h);
    }
    forall a, b | a in u.active && b in u.active && a != b ensures !Twins(cfg, u, a, b) {
      assert !Twins(cfg, rm, a, b);
    }
    assert u.active.Keys <= rm.active.Keys;
    SmallerMap(u.active, rm.active);
  }

  lemma SmallerMap(a: map<int, Entry>, b: map<int, Entry>)
    requires a.Keys <= b.Keys
    ensures |a| <= |b|
  {
    SmallerSet(a.Keys, b.Keys);
    assert |a| == |a.Keys| && |b| == |b.Keys|;
  }

  lemma SmallerSet(a: set<int>, b: set<int>)
    requires a <= b
    ensures |a| <= |b|
  {
    assert b == a + (b - a);
  }

  // Marking an entry changes nothing the index speaks of.
  lemma MarkingKeepsIndex(cfg: Config, rm: Rm, u: Rm)
    requires RmInv(cfg, rm) && u.handles == rm.handles && Contained(u.cache)
    requires u.active.Keys == rm.active.Keys && forall h :: h in rm.active ==> u.active[h].req == rm.active[h].req
    ensures RmInv(cfg, u)
  {
    forall t, h | Recorded(u, t, h) ensures h in u.active && u.active[h].req.tid == t {
      assert Recorded(rm, t, h);
    }
    forall h | h in u.active ensures Recorded(u, u.active[h].req.tid, h) {
      assert h in rm.active && Recorded(rm, rm.active[h].req.tid, h);
    }
    forall a, b | a in u.active && b in u.active && a != b ensures !Twins(cfg, u, a, b) {
      assert !Twins(cfg, rm, a, b);
    }
    SmallerMap(u.active, rm.active);
  }

  // ---- Step by step ----

  lemma NewThreadIndex(cfg: Config, s: Sys, pid: int, tid: int)
    requires IndexInv(cfg, s)
    ensures IndexInv(cfg, DoNewThread(s, pid, tid))
  {
    var u := DoNewThread(s, pid, tid);
    forall t, h | Recorded(u.rm, t, h) ensures h in u.rm.active && u.rm.active[h].req.tid == t {
      assert Recorded(s.rm, t, h);
    }
    forall h | h in u.rm.active ensures Recorded(u.rm, u.rm.active[h].req.tid, h) {
      assert h in s.rm.active && Recorded(s.rm, s.rm.active[h].req.tid, h);
    }
    forall a, b | a in u.rm.active && b in u.rm.active && a != b ensures !Twins(cfg, u.rm, a, b) {
      assert !Twins(cfg, s.rm, a, b);
    }
  }

  lemma RegisterIndex(cfg: Config, s: Sys, o: nat)
    requires Core(cfg, s) && IndexInv(cfg, s)
    ensures IndexInv(cfg, DoRegister(cfg, s, o))
  {
    if o in s.flights && s.flights[o] == Verified && o in s.mem {
      var r := s.mem[o];
      assert TuneMapped(s, o) && TuneOk(cfg, r, s.issued, s.ownerOf);
      forall h | h in s.rm.active && s.rm.active[h].req.tid == r.tid ensures s.rm.active[h].req.pid == r.pid {
        assert EntryOk(s, h);
        assert TuneOk(cfg, s.mem[s.rm.active[h].req.obj], s.issued, s.ownerOf);
      }
      AdmissionKeepsIndex(cfg, s.rm, r);
      AdmissionKeepsTwinsOut(cfg, s.rm, r);
    }
  }

  lemma DisableIndex(cfg: Config, s: Sys, o: nat)
    requires IndexInv(cfg, s)
    ensures Popping(s.rm.cache) ==> s.rm.cache.queue != []
    ensures IndexInv(cfg, DoDisable(s, o))
  {
    ContainedInsert(s.rm.cache, 0);
    if o in s.flights && s.flights[o] == Arrived && o in s.mem {
      var h := s.mem[o].handle;
      ContainedInsert(s.rm.cache, h);
      MarkingKeepsIndex(cfg, s.rm, Disable(s.rm, h).rm);
    }
  }

  lemma MarkCompleteIndex(cfg: Config, s: Sys)
    requires IndexInv(cfg, s)
    ensures IndexInv(cfg, DoMarkComplete(s))
  {
    if s.consumer.Accepting? && s.consumer.o in s.mem {
      MarkingKeepsIndex(cfg, s.rm, Complete(s.rm, s.mem[s.consumer.o].handle));
    }
  }

  lemma ForgetIndex(cfg: Config, s: Sys, t: nat)
    requires Core(cfg, s) && IndexInv(cfg, s)
    requires s.consumer == Dropping(t) || (s.consumer.Taken? && s.consumer.target == t)
    ensures t in s.mem && RmInv(cfg, Forget(s.rm, s.mem[t]))
    ensures forall x :: x in s.rm.handles ==> x in Forget(s.rm, s.mem[t]).handles
  {
    assert PlaceOk(s, t);
    assert TuneMapped(s, t);
    ForgettingKeepsIndex(cfg, s.rm, s.mem[t]);
  }

  // Each thread's handle set is the set of the active handles of that thread.
  lemma HandleSetsAreActive(cfg: Config, s: Sys, t: int)
    requires IndexInv(cfg, s) && t in s.rm.handles
    ensures s.rm.handles[t] == set h | h in s.rm.active && s.rm.active[h].req.tid == t
  {
    forall h ensures h in s.rm.handles[t] <==> h in s.rm.active && s.rm.active[h].req.tid == t {
      assert Recorded(s.rm, t, h) <==> h in s.rm.handles[t];
    }
  }
}
