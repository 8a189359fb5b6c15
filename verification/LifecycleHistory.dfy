// What a run remembers: which tunes were cancelled before the consumer looked at
// them, and of which handles the tune or a client's untune has been consumed.

module LifecycleHistory {
  import opened Types
  import opened ListOrder
  import opened CocoSpec
  import opened LruCaches
  import opened RequestManagers
  import opened Lifecycle
  import opened LifecycleSafety

  // A producer still holds a verified tune with handle h.
  ghost predicate Arriving(s: Sys, h: int) {
    exists o :: o in s.flights && s.flights[o] == Verified && o in s.mem && s.mem[o].handle == h
  }

  // Handle h will not be admitted any more.
  ghost predicate Closed(s: Sys, h: int) {
    h in s.issued && !Arriving(s, h)
  }

  ghost predicate Doomed(s: Sys, h: int) {
    Closed(s, h) && (h in s.rm.active ==> s.rm.active[h].cancelled)
  }

  // Admitted and certain to be dropped, if it is cancelled.
  ghost predicate Avoidable(s: Sys, h: int)
    requires h in s.rm.active
  {
    Unread(s, h) || s.consumer == Dropping(s.rm.active[h].req.obj)
  }

  ghost predicate Undone(s: Sys, h: int) {
    Doomed(s, h) && (h in s.rm.active ==> Avoidable(s, h))
  }

  ghost predicate Processed(s: Sys, h: int) {
    Closed(s, h) && (h in s.rm.active ==> Applied(s, s.rm.active[h].req.obj))
  }

  ghost predicate HistoryInv(s: Sys) {
    && (forall o :: o in s.clientUntunes ==> o in s.mem && s.mem[o].kind == Untune && Doomed(s, s.mem[o].handle))
    && (forall h :: h in s.precancelled ==> Undone(s, h))
    && (forall h :: h in s.untuneDone ==> Undone(s, h))
    && (forall h :: h in s.tuneDone ==> Processed(s, h))
  }

  // What one step may do to the entry of handle h.
  ghost predicate Successor(s: Sys, u: Sys, h: int)
    requires h in u.rm.active
  {
    if h in s.rm.active then
      && u.rm.active[h].req == s.rm.active[h].req
      && (s.rm.active[h].cancelled ==> u.rm.active[h].cancelled)
      && (s.rm.active[h].cancelled && Avoidable(s, h) ==> Avoidable(u, h))
      && (Applied(s, s.rm.active[h].req.obj) ==> Applied(u, s.rm.active[h].req.obj))
    else Arriving(s, h)
  }

  ghost predicate Forward(s: Sys, u: Sys) {
    && s.issued <= u.issued
    && (forall o :: o in s.mem ==> o in u.mem && u.mem[o] == s.mem[o])
    && (forall h {:trigger Arriving(u, h)} :: Arriving(u, h) ==> Arriving(s, h) || h !in s.issued)
    && (forall h {:trigger Successor(s, u, h)} :: h in u.rm.active ==> Successor(s, u, h))
  }

  lemma ForwardKeeps(s: Sys, u: Sys, h: int)
    requires Forward(s, u)
    ensures Doomed(s, h) ==> Doomed(u, h)
    ensures Undone(s, h) ==> Undone(u, h)
    ensures Processed(s, h) ==> Processed(u, h)
  {
    assert Arriving(u, h) ==> Arriving(s, h) || h !in s.issued;
    assert h in u.rm.active ==> Successor(s, u, h);
  }

  // A step keeps what history says, provided what it adds to history is true.
  lemma HistoryStep(s: Sys, u: Sys)
    requires HistoryInv(s) && Forward(s, u)
    requires forall o :: o in u.clientUntunes && o !in s.clientUntunes ==>
               o in u.mem && u.mem[o].kind == Untune && Doomed(u, u.mem[o].handle)
    requires forall h :: h in u.precancelled && h !in s.precancelled ==> Undone(u, h)
    requires forall h :: h in u.untuneDone && h !in s.untuneDone ==> Undone(u, h)
    requires forall h :: h in u.tuneDone && h !in s.tuneDone ==> Processed(u, h)
    ensures HistoryInv(u)
  {
    forall o | o in u.clientUntunes ensures o in u.mem && u.mem[o].kind == Untune && Doomed(u, u.mem[o].handle) {
      if o in s.clientUntunes {
        ForwardKeeps(s, u, s.mem[o].handle);
      }
    }
    forall h ensures h in u.precancelled ==> Undone(u, h)
      ensures h in u.untuneDone ==> Undone(u, h)
      ensures h in u.tuneDone ==> Processed(u, h)
    {
      ForwardKeeps(s, u, h);
    }
  }

  // ---- Step by step ----

  lemma NewThreadForward(cfg: Config, s: Sys, pid: int, tid: int)
    requires Core(cfg, s)
    ensures Forward(s, DoNewThread(s, pid, tid))
  {
    var u := DoNewThread(s, pid, tid);
    forall h | h in u.rm.active ensures Successor(s, u, h) {
      assert EntryOk(s, h);
    }
  }

  lemma NewTuneForward(cfg: Config, s: Sys, r: Req, items: nat)
    requires Core(cfg, s)
    ensures Forward(s, DoNewTune(cfg, s, r, items))
  {
    var u := DoNewTune(cfg, s, r, items);
    forall h | h in u.rm.active ensures Successor(s, u, h) {
      assert EntryOk(s, h);
      assert PlaceOk(s, r.obj);
    }
  }

  lemma RegisterForward(cfg: Config, s: Sys, o: nat)
    requires Core(cfg, s)
    ensures Forward(s, DoRegister(cfg, s, o))
  {
    var u := DoRegister(cfg, s, o);
    if o in s.flights && s.flights[o] == Verified && o in s.mem {
      assert Arriving(s, s.mem[o].handle);
      assert TuneMapped(s, o);

      AdmittingForward(cfg, s, u, o);
    } else {
      AdmittingForward(cfg, s, s, o);
    }
  }

  lemma AdmittingForward(cfg: Config, s: Sys, u: Sys, o: nat)
    requires Core(cfg, s)
    requires u.mem == s.mem && u.issued == s.issued && u.queue == s.queue && u.consumer == s.consumer
    requires u.tabled == s.tabled
    requires forall p :: p in u.flights && u.flights[p] == Verified ==> p in s.flights && s.flights[p] == Verified
    requires forall p :: p in s.flights && s.flights[p] == Registered ==> p in u.flights && u.flights[p] == Registered
    requires u.rm.active == s.rm.active
         || (o in s.mem && Arriving(s, s.mem[o].handle) && s.mem[o].handle !in s.rm.active
             && u.rm.active == s.rm.active[s.mem[o].handle := Entry(s.mem[o], false, false)])
    ensures Forward(s, u)
  {
    forall h | h in u.rm.active ensures Successor(s, u, h) {
      assert h in s.rm.active ==> EntryOk(s, h);
    }
  }

  lemma EnqueueForward(cfg: Config, s: Sys, o: nat)
    requires Core(cfg, s)
    ensures Forward(s, DoEnqueue(s, o))
  {
    var u := DoEnqueue(s, o);
    assert o in s.mem && s.mem[o].kind == Tune ==> TuneOk(cfg, s.mem[o], s.issued, s.ownerOf);
    forall h | h in u.rm.active ensures Successor(s, u, h) {
      assert EntryOk(s, h);
    }
  }

  lemma ArriveForward(cfg: Config, s: Sys, r: Req, kind: ReqKind, stage: Stage)
    requires Core(cfg, s) && stage != Verified
    ensures Forward(s, DoArrive(s, r, kind, stage))
  {
    var u := DoArrive(s, r, kind, stage);
    assert PlaceOk(s, r.obj);
    forall h | h in u.rm.active ensures Successor(s, u, h) {
      assert EntryOk(s, h);
    }
  }

  lemma DisableForward(cfg: Config, s: Sys, o: nat)
    requires Core(cfg, s) && (Popping(s.rm.cache) ==> s.rm.cache.queue != [])
    ensures Forward(s, DoDisable(s, o))
  {
    var u := DoDisable(s, o);
    forall h | h in u.rm.active ensures Successor(s, u, h) {
      assert EntryOk(s, h);
    }
  }

  lemma DisableHistory(cfg: Config, s: Sys, o: nat)
    requires Core(cfg, s) && HistoryInv(s) && (Popping(s.rm.cache) ==> s.rm.cache.queue != [])
    ensures HistoryInv(DoDisable(s, o))
  {
    var u := DoDisable(s, o);
    DisableForward(cfg, s, o);
    if o in s.flights && s.flights[o] == Arrived && o in s.mem {
      var h := s.mem[o].handle;
      if h in s.rm.active {
        ActiveIsClosed(cfg, s, h);
        ClosedKept(s, u, h);
        assert Unread(s, h) ==> Unread(u, h);
      }
    }
    HistoryStep(s, u);
  }

  lemma ActiveIsClosed(cfg: Config, s: Sys, h: int)
    requires Core(cfg, s) && h in s.rm.active
    ensures Closed(s, h)
  {
    assert EntryOk(s, h);
    assert TuneOk(cfg, s.mem[s.rm.active[h].req.obj], s.issued, s.ownerOf);
    forall o | o in s.flights && s.flights[o] == Verified && o in s.mem ensures s.mem[o].handle != h {
      assert TuneMapped(s, o);
    }
  }

  lemma ClosedKept(s: Sys, u: Sys, h: int)
    requires Forward(s, u) && Closed(s, h)
    ensures Closed(u, h)
  {
    assert Arriving(u, h) ==> Arriving(s, h) || h !in s.issued;
  }

  lemma RejectForward(cfg: Config, s: Sys, o: nat)
    requires Core(cfg, s)
    ensures Forward(s, DoReject(s, o))
  {
    var u := DoReject(s, o);
    forall h | h in u.rm.active ensures Successor(s, u, h) {
      assert EntryOk(s, h);
    }
  }

  lemma CheckHandleForward(cfg: Config, s: Sys, o: nat)
    requires Core(cfg, s)
    ensures Forward(s, DoCheckHandle(s, o))
  {
    var u := DoCheckHandle(s, o);
    forall h | h in u.rm.active ensures Successor(s, u, h) {
      assert EntryOk(s, h);
    }
  }

  lemma ExpireForward(cfg: Config, s: Sys, t: nat, o: nat)
    requires Core(cfg, s)
    ensures Forward(s, DoExpire(s, t, o))
  {
    var u := DoExpire(s, t, o);
    assert PlaceOk(s, o);
    forall h | h in u.rm.active ensures Successor(s, u, h) {
      assert EntryOk(s, h);
    }
  }

  lemma PopForward(cfg: Config, s: Sys, o: nat)
    requires Core(cfg, s)
    ensures Forward(s, DoPop(s, o))
  {
    var u := DoPop(s, o);
    assert o in s.mem && s.mem[o].kind == Tune ==> TuneOk(cfg, s.mem[o], s.issued, s.ownerOf);
    forall h | h in u.rm.active ensures Successor(s, u, h) {
      assert EntryOk(s, h);
    }
  }

  lemma ReadStatusForward(cfg: Config, s: Sys)
    requires Core(cfg, s)
    ensures Forward(s, DoReadStatus(s))
  {
    if s.consumer.Popped? && s.consumer.o in s.mem {
      match s.mem[s.consumer.o].kind
      case Tune => ReadTuneForward(cfg, s, s.consumer.o);
      case Untune => ReadOtherForward(cfg, s, ReadUntune(s, s.consumer.o), s.consumer.o);
      case Retune => ReadOtherForward(cfg, s, Freed(s.(consumer := Idle), s.consumer.o), s.consumer.o);
    } else {
      ReadOtherForward(cfg, s, s, 0);
    }
  }

  lemma ReadTuneForward(cfg: Config, s: Sys, o: nat)
    requires Core(cfg, s) && s.consumer == Popped(o) && s.mem[o].kind == Tune
    ensures Forward(s, ReadTune(s, o))
  {
    var u := ReadTune(s, o);
    forall h | h in u.rm.active ensures Successor(s, u, h) {
      assert EntryOk(s, h);
      assert PlaceOk(s, s.rm.active[h].req.obj);
    }
  }

  // The consumer is busy with an object that is not a tune.
  lemma ReadOtherForward(cfg: Config, s: Sys, u: Sys, o: nat)
    requires Core(cfg, s) && ((s.consumer == Popped(o) && s.mem[o].kind != Tune) || u.consumer == s.consumer)
    requires u.mem == s.mem && u.rm == s.rm && u.flights == s.flights && u.queue == s.queue && u.tabled == s.tabled
    requires u.issued == s.issued && (u.consumer == s.consumer || u.consumer.Idle? || u.consumer.Taking?)
    ensures Forward(s, u)
  {
    forall h | h in u.rm.active ensures Successor(s, u, h) {
      assert EntryOk(s, h);
    }
  }

  // An untune whose tune is not completed finds it cancelled, with its status
  // still to be read, or not active at all.
  lemma ReadStatusHistory(cfg: Config, s: Sys)
    requires Core(cfg, s) && HistoryInv(s)
    ensures HistoryInv(DoReadStatus(s))
  {
    var u := DoReadStatus(s);
    ReadStatusForward(cfg, s);
    if s.consumer.Popped? && s.consumer.o in s.clientUntunes {
      var h := s.mem[s.consumer.o].handle;
      ForwardKeeps(s, u, h);
      if h in s.rm.active {
        assert EntryOk(s, h);
      }
    }
    HistoryStep(s, u);
  }

  lemma MarkCompleteForward(cfg: Config, s: Sys)
    requires Core(cfg, s)
    ensures Forward(s, DoMarkComplete(s))
  {
    var u := DoMarkComplete(s);
    forall h | h in u.rm.active ensures Successor(s, u, h) {
      assert EntryOk(s, h);
    }
  }

  lemma RefusedForward(cfg: Config, s: Sys, o: nat)
    requires Core(cfg, s) && s.consumer == Marked(o)
    ensures Forward(s, s.(consumer := Dropping(o)))
  {
    var u := s.(consumer := Dropping(o));
    forall h | h in u.rm.active ensures Successor(s, u, h) {
      assert EntryOk(s, h);
    }
  }

  lemma SettledHistory(cfg: Config, s: Sys, o: nat)
    requires Core(cfg, s) && HistoryInv(s) && s.consumer == Marked(o)
    ensures HistoryInv(Settled(s, o))
  {
    var u := Settled(s, o);
    var h := s.mem[o].handle;
    assert TuneMapped(s, o);
    forall k | k in u.rm.active ensures Successor(s, u, k) {
      assert EntryOk(s, k);
    }
    ActiveIsClosed(cfg, s, h);
    ClosedKept(s, u, h);
    HistoryStep(s, u);
  }

  lemma DropHistory(cfg: Config, s: Sys, o: nat)
    requires Core(cfg, s) && HistoryInv(s) && s.consumer == Dropping(o)
    ensures HistoryInv(DoDrop(s))
  {
    var u := DoDrop(s);
    var h := s.mem[o].handle;
    assert TuneMapped(s, o);
    forall k | k in u.rm.active ensures Successor(s, u, k) {
      assert EntryOk(s, k);
    }
    ActiveIsClosed(cfg, s, h);
    ClosedKept(s, u, h);
    HistoryStep(s, u);
  }

  lemma TakeForward(cfg: Config, ctx: Ctx, s: Sys, mode: Mode, o: nat, t: nat)
    requires Core(cfg, s) && s.consumer == Taking(o, t) && Shape(ctx, s.table)
    ensures Forward(s, DoTake(ctx, s, mode))
  {
    var u := DoTake(ctx, s, mode);
    WithoutMembers(s.tabled, t);
    forall h | h in u.rm.active ensures Successor(s, u, h) {
      assert EntryOk(s, h);
    }
  }

  lemma ReleaseHistory(cfg: Config, s: Sys, o: nat, t: nat)
    requires Core(cfg, s) && HistoryInv(s) && s.consumer == Taken(o, t)
    ensures HistoryInv(DoRelease(s))
  {
    var u := DoRelease(s);
    var h := s.mem[o].handle;
    assert TuneMapped(s, t);
    forall k | k in u.rm.active ensures Successor(s, u, k) {
      assert EntryOk(s, k);
    }
    ActiveIsClosed(cfg, s, h);
    ClosedKept(s, u, h);
    HistoryStep(s, u);
  }

  // ---- What it means ----

  // A tune cancelled before its status was read never reaches the table.
  lemma CancelledStaysOut(cfg: Config, s: Sys, o: nat)
    requires Core(cfg, s) && HistoryInv(s)
    requires o in s.mem && s.mem[o].kind == Tune && s.mem[o].handle in s.precancelled
    ensures !Applied(s, o) && s.consumer != Accepting(o) && s.consumer != Marked(o)
  {
    var h := s.mem[o].handle;
    assert Undone(s, h);
    assert TuneMapped(s, o);
    assert PlaceOk(s, o);
  }

  // Once both the tune and a client's untune of a handle have been consumed, in
  // whichever order, the handle is neither active nor in the table.
  lemma UntunedForGood(cfg: Config, s: Sys, h: int)
    requires Core(cfg, s) && HistoryInv(s) && h in s.tuneDone && h in s.untuneDone
    ensures h !in s.rm.active
    ensures forall o :: o in s.mem && s.mem[o].kind == Tune && s.mem[o].handle == h ==>
              !Applied(s, o) && !Awaiting(s, o)
  {
    assert Undone(s, h) && Processed(s, h);
    assert h in s.rm.active ==> EntryOk(s, h) && PlaceOk(s, s.rm.active[h].req.obj);
    forall o | o in s.mem && s.mem[o].kind == Tune && s.mem[o].handle == h ensures !Applied(s, o) && !Awaiting(s, o) {
      assert TuneMapped(s, o);
    }
  }
}
