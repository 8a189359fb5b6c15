// What becomes of a tune: once it has been consumed, it is in the table exactly
// if it was not cancelled in time, the table took some entry of it, and no
// untune of its handle has been consumed.

module LifecycleFates {
  import opened Types
  import opened ListOrder
  import opened CocoSpec
  import opened LruCaches
  import opened RequestManagers
  import opened Lifecycle
  import opened LifecycleSafety
  import opened LifecycleHistory
  import opened LifecycleRuns

  // The table has a slot for some entry of the request.
  ghost predicate Wanted(ctx: Ctx, r: Req) {
    exists x :: x in r.items && Target(ctx, x.res, r.prio).Some?
  }

  lemma WantedIsAccepted(ctx: Ctx, r: Req)
    ensures Wanted(ctx, r) <==> Accepted(ctx, r.items, r.prio) > 0
  {
    Coordinator.AcceptedIff(ctx, r.items, r.prio);
  }

  // A cancelled tune whose status is still to be read was cancelled in time.
  ghost predicate InTime(s: Sys, h: int)
    requires h in s.rm.active
  {
    s.rm.active[h].cancelled && Unread(s, h) ==> h in s.precancelled
  }

  // There is a reason to drop tune o.
  ghost predicate Droppable(ctx: Ctx, s: Sys, o: nat)
    requires o in s.mem
  {
    s.mem[o].handle in s.precancelled || !Wanted(ctx, s.mem[o])
  }

  ghost predicate Worthy(ctx: Ctx, s: Sys, o: nat)
    requires o in s.mem
  {
    Applied(s, o) ==> Wanted(ctx, s.mem[o]) && s.mem[o].handle in s.tuneDone
  }

  // A timer's untune, or an untune of which no one knows where it came from.
  ghost predicate Timed(s: Sys, o: nat)
    requires o in s.mem
  {
    && s.mem[o].kind == Untune && o !in s.clientUntunes
    && ((o in s.flights && s.flights[o] != Arrived) || s.queue[o] > 0 || Held(s.consumer, o))
  }

  ghost predicate TimedOk(s: Sys, o: nat)
    requires o in s.mem
  {
    Timed(s, o) ==> Processed(s, s.mem[o].handle)
  }

  // A consumed tune that is not in the table has a reason.
  ghost predicate FateOk(ctx: Ctx, s: Sys, o: nat)
    requires o in s.mem
  {
    s.mem[o].kind == Tune && s.mem[o].handle in s.tuneDone && !Applied(s, o) ==>
      Droppable(ctx, s, o) || s.mem[o].handle in s.untuned
  }

  ghost predicate FateInv(ctx: Ctx, s: Sys) {
    && (forall h {:trigger InTime(s, h)} :: h in s.rm.active ==> InTime(s, h))
    && (s.consumer.Dropping? && s.consumer.o in s.mem ==> Droppable(ctx, s, s.consumer.o))
    && (forall o {:trigger Worthy(ctx, s, o)} :: o in s.mem ==> Worthy(ctx, s, o))
    && (forall o {:trigger TimedOk(s, o)} :: o in s.mem ==> TimedOk(s, o))
    && (forall o {:trigger FateOk(ctx, s, o)} :: o in s.mem ==> FateOk(ctx, s, o))
    && (forall h :: h in s.untuned ==> Undone(s, h))
  }

  // ---- What a step has to show ----

  ghost predicate StaysInTime(s: Sys, u: Sys, h: int)
    requires h in u.rm.active
  {
    u.rm.active[h].cancelled && Unread(u, h) ==>
      h in u.precancelled || (h in s.rm.active && s.rm.active[h].cancelled && Unread(s, h))
  }

  // The timers' untunes of u were so in s, or are for a tune that is done.
  ghost predicate StaysTimed(s: Sys, u: Sys, o: nat)
    requires o in u.mem
  {
    Timed(u, o) ==> (o in s.mem && Timed(s, o)) || Processed(u, u.mem[o].handle)
  }

  // What the step does to o is explained.
  ghost predicate Explained(ctx: Ctx, s: Sys, u: Sys, o: nat)
    requires o in u.mem
  {
    && (Applied(u, o) && !Applied(s, o) ==> Wanted(ctx, u.mem[o]) && u.mem[o].handle in u.tuneDone)
    && (u.mem[o].kind == Tune && u.mem[o].handle in u.tuneDone && !Applied(u, o) ==>
          || (o in s.mem && u.mem[o].handle in s.tuneDone && !Applied(s, o))
          || Droppable(ctx, u, o) || u.mem[o].handle in u.untuned)
  }

  ghost predicate Onward(ctx: Ctx, s: Sys, u: Sys) {
    && Forward(s, u)
    && s.precancelled <= u.precancelled && s.untuned <= u.untuned && s.tuneDone <= u.tuneDone
    && (forall h {:trigger StaysInTime(s, u, h)} :: h in u.rm.active ==> StaysInTime(s, u, h))
    && (u.consumer.Dropping? && u.consumer.o in u.mem ==>
          s.consumer == u.consumer || Droppable(ctx, u, u.consumer.o))
    && (forall o {:trigger StaysTimed(s, u, o)} :: o in u.mem ==> StaysTimed(s, u, o))
    && (forall o {:trigger Explained(ctx, s, u, o)} :: o in u.mem ==> Explained(ctx, s, u, o))
    && (forall h :: h in u.untuned ==> h in s.untuned || Undone(u, h))
  }

  lemma StepKeepsFate(cfg: Config, ctx: Ctx, s: Sys, u: Sys)
    requires Core(cfg, s) && FateInv(ctx, s) && Onward(ctx, s, u)
    ensures FateInv(ctx, u)
  {
    forall h | h in u.rm.active ensures InTime(u, h) {
      assert StaysInTime(s, u, h);
      assert h in s.rm.active ==> InTime(s, h);
    }
    forall o | o in u.mem ensures Worthy(ctx, u, o) && TimedOk(u, o) && FateOk(ctx, u, o) {
      assert StaysTimed(s, u, o) && Explained(ctx, s, u, o);
      assert PlaceOk(s, o);
      if o in s.mem {
        assert Worthy(ctx, s, o) && TimedOk(s, o) && FateOk(ctx, s, o);
        ForwardKeeps(s, u, s.mem[o].handle);
      }
    }
    forall h | h in u.untuned ensures Undone(u, h) {
      ForwardKeeps(s, u, h);
    }
  }

  // ---- Steps that decide nothing ----

  // No mark is set in time, and no timer's untune comes up.
  ghost predicate NothingMarked(s: Sys, u: Sys, h: int)
    requires h in u.rm.active
  {
    u.rm.active[h].cancelled && Unread(u, h) ==> h in s.rm.active && s.rm.active[h].cancelled && Unread(s, h)
  }

  ghost predicate NothingTimed(s: Sys, u: Sys, o: nat)
    requires o in u.mem
  {
    && (Timed(u, o) ==> o in s.mem && Timed(s, o))
    && (o !in s.mem && u.mem[o].kind == Tune ==> u.mem[o].handle !in s.issued)
  }

  lemma CalmKeepsFate(cfg: Config, ctx: Ctx, s: Sys, u: Sys)
    requires Core(cfg, s) && HistoryInv(s) && FateInv(ctx, s) && Forward(s, u)
    requires u.precancelled == s.precancelled && u.untuned == s.untuned && u.tuneDone == s.tuneDone
    requires u.tabled == s.tabled
    requires u.consumer == s.consumer || (!u.consumer.Dropping? && !u.consumer.Taken? && !s.consumer.Taken?)
    requires forall h {:trigger NothingMarked(s, u, h)} :: h in u.rm.active ==> NothingMarked(s, u, h)
    requires forall o {:trigger NothingTimed(s, u, o)} :: o in u.mem ==> NothingTimed(s, u, o)
    ensures FateInv(ctx, u)
  {
    forall h | h in u.rm.active ensures StaysInTime(s, u, h) {
      assert NothingMarked(s, u, h);
    }
    forall o | o in u.mem ensures StaysTimed(s, u, o) && Explained(ctx, s, u, o) {
      assert NothingTimed(s, u, o);
      assert u.mem[o].handle in s.tuneDone ==> Processed(s, u.mem[o].handle);
    }
    StepKeepsFate(cfg, ctx, s, u);
  }

  lemma NewThreadFate(cfg: Config, ctx: Ctx, s: Sys, pid: int, tid: int)
    requires Core(cfg, s) && HistoryInv(s) && FateInv(ctx, s)
    ensures FateInv(ctx, DoNewThread(s, pid, tid))
  {
    NewThreadForward(cfg, s, pid, tid);
    CalmKeepsFate(cfg, ctx, s, DoNewThread(s, pid, tid));
  }

  lemma NewTuneFate(cfg: Config, ctx: Ctx, s: Sys, r: Req, items: nat)
    requires Core(cfg, s) && HistoryInv(s) && FateInv(ctx, s)
    ensures FateInv(ctx, DoNewTune(cfg, s, r, items))
  {
    var u := DoNewTune(cfg, s, r, items);
    NewTuneForward(cfg, s, r, items);
    assert PlaceOk(s, r.obj);
    forall h | h in u.rm.active ensures NothingMarked(s, u, h) {
      assert EntryOk(s, h);
    }
    CalmKeepsFate(cfg, ctx, s, u);
  }

  lemma RegisterFate(cfg: Config, ctx: Ctx, s: Sys, o: nat)
    requires Core(cfg, s) && HistoryInv(s) && FateInv(ctx, s)
    ensures FateInv(ctx, DoRegister(cfg, s, o))
  {
    if o in s.flights && s.flights[o] == Verified && o in s.mem {
      assert TuneMapped(s, o);
      var u := DoRegister(cfg, s, o);
      RegisterForward(cfg, s, o);
      AdmissionAdds(cfg, s.rm, s.mem[o]);
      forall h | h in u.rm.active ensures NothingMarked(s, u, h) {
        assert h in s.rm.active ==> EntryOk(s, h);
      }
      NothingTimedOff(s, u, o);
      CalmKeepsFate(cfg, ctx, s, u);
    }
  }

  // Admission adds the request with no marks, or changes nothing.
  lemma AdmissionAdds(cfg: Config, rm: Rm, req: Req)
    requires req.handle !in rm.active
    ensures var a := CheckAndAdd(cfg, rm, req);
      a.rm.active == if a.ok then rm.active[req.handle := Entry(req, false, false)] else rm.active
  {
  }

  // Only object o has moved, among the producers or out of their hands.
  lemma NothingTimedOff(s: Sys, u: Sys, o: nat)
    requires u.mem == s.mem && u.clientUntunes == s.clientUntunes && u.queue == s.queue && u.consumer == s.consumer
    requires o in s.mem && s.mem[o].kind == Tune
    requires forall p :: p != o && p in u.flights ==> p in s.flights && u.flights[p] == s.flights[p]
    ensures forall p {:trigger NothingTimed(s, u, p)} :: p in u.mem ==> NothingTimed(s, u, p)
  {
  }

  lemma EnqueueFate(cfg: Config, ctx: Ctx, s: Sys, o: nat)
    requires Core(cfg, s) && HistoryInv(s) && FateInv(ctx, s)
    ensures FateInv(ctx, DoEnqueue(s, o))
  {
    if o in s.flights && Enqueueable(s.flights[o]) && o in s.mem {
      var u := DoEnqueue(s, o);
      EnqueueForward(cfg, s, o);
      forall h | h in u.rm.active ensures NothingMarked(s, u, h) {
        assert EntryOk(s, h);
      }
      CalmKeepsFate(cfg, ctx, s, u);
    }
  }

  lemma ArriveFate(cfg: Config, ctx: Ctx, s: Sys, r: Req, kind: ReqKind, stage: Stage)
    requires Core(cfg, s) && HistoryInv(s) && FateInv(ctx, s)
    requires (kind == Untune && stage == Arrived) || (kind == Retune && stage == Received)
    ensures FateInv(ctx, DoArrive(s, r, kind, stage))
  {
    var u := DoArrive(s, r, kind, stage);
    ArriveForward(cfg, s, r, kind, stage);
    assert PlaceOk(s, r.obj);
    forall h | h in u.rm.active ensures NothingMarked(s, u, h) {
      assert EntryOk(s, h);
    }
    CalmKeepsFate(cfg, ctx, s, u);
  }

  lemma RejectFate(cfg: Config, ctx: Ctx, s: Sys, o: nat)
    requires Core(cfg, s) && HistoryInv(s) && FateInv(ctx, s)
    ensures FateInv(ctx, DoReject(s, o))
  {
    RejectForward(cfg, s, o);
    CalmKeepsFate(cfg, ctx, s, DoReject(s, o));
  }

  lemma CheckHandleFate(cfg: Config, ctx: Ctx, s: Sys, o: nat)
    requires Core(cfg, s) && HistoryInv(s) && FateInv(ctx, s)
    ensures FateInv(ctx, DoCheckHandle(s, o))
  {
    CheckHandleForward(cfg, s, o);
    CalmKeepsFate(cfg, ctx, s, DoCheckHandle(s, o));
  }

  lemma PopFate(cfg: Config, ctx: Ctx, s: Sys, o: nat)
    requires Core(cfg, s) && HistoryInv(s) && FateInv(ctx, s)
    ensures FateInv(ctx, DoPop(s, o))
  {
    var u := DoPop(s, o);
    if u != s {
      PopForward(cfg, s, o);
      forall h | h in u.rm.active ensures NothingMarked(s, u, h) {
        assert EntryOk(s, h);
      }
      CalmKeepsFate(cfg, ctx, s, u);
    }
  }

  lemma MarkCompleteFate(cfg: Config, ctx: Ctx, s: Sys)
    requires Core(cfg, s) && HistoryInv(s) && FateInv(ctx, s)
    ensures FateInv(ctx, DoMarkComplete(s))
  {
    MarkCompleteForward(cfg, s);
    CalmKeepsFate(cfg, ctx, s, DoMarkComplete(s));
  }

  // ---- Steps of the producers that count ----

  // An untune that cancels a tune whose status is still to be read does so in time.
  lemma DisableFate(cfg: Config, ctx: Ctx, s: Sys, o: nat)
    requires Core(cfg, s) && HistoryInv(s) && FateInv(ctx, s) && (Popping(s.rm.cache) ==> s.rm.cache.queue != [])
    ensures FateInv(ctx, DoDisable(s, o))
  {
    var u := DoDisable(s, o);
    if o in s.flights && s.flights[o] == Arrived && o in s.mem {
      DisableForward(cfg, s, o);
      forall h | h in u.rm.active ensures StaysInTime(s, u, h) {
      }
      forall p | p in u.mem ensures StaysTimed(s, u, p) && Explained(ctx, s, u, p) {
      }
      StepKeepsFate(cfg, ctx, s, u);
    }
  }

  // A timer untunes what is in the table.
  lemma ExpireFate(cfg: Config, ctx: Ctx, s: Sys, t: nat, o: nat)
    requires Core(cfg, s) && HistoryInv(s) && FateInv(ctx, s)
    ensures FateInv(ctx, DoExpire(s, t, o))
  {
    var u := DoExpire(s, t, o);
    ExpireForward(cfg, s, t, o);
    assert PlaceOk(s, o);
    if t in s.tabled && t in s.mem {
      assert TuneMapped(s, t);
      ActiveIsClosed(cfg, s, s.mem[t].handle);
      ForwardKeeps(s, u, s.mem[t].handle);
    }
    forall h | h in u.rm.active ensures StaysInTime(s, u, h) {
      assert EntryOk(s, h);
    }
    forall p | p in u.mem ensures StaysTimed(s, u, p) && Explained(ctx, s, u, p) {
    }
    StepKeepsFate(cfg, ctx, s, u);
  }

  // ---- Steps of the consumer ----

  // A tune is dropped only if it was cancelled in time.
  lemma ReadTuneFate(cfg: Config, ctx: Ctx, s: Sys, o: nat)
    requires Core(cfg, s) && HistoryInv(s) && FateInv(ctx, s) && s.consumer == Popped(o) && s.mem[o].kind == Tune
    ensures FateInv(ctx, ReadTune(s, o))
  {
    var u, h := ReadTune(s, o), s.mem[o].handle;
    ReadTuneForward(cfg, s, o);
    assert TuneMapped(s, o);
    assert EntryOk(s, h) && InTime(s, h);
    assert u.consumer.Dropping? ==> Droppable(ctx, u, o);
    forall k | k in u.rm.active ensures StaysInTime(s, u, k) {
    }
    forall p | p in u.mem ensures StaysTimed(s, u, p) && Explained(ctx, s, u, p) {
    }
    StepKeepsFate(cfg, ctx, s, u);
  }

  lemma ReadUntuneFate(cfg: Config, ctx: Ctx, s: Sys, o: nat)
    requires Core(cfg, s) && HistoryInv(s) && FateInv(ctx, s) && s.consumer == Popped(o) && s.mem[o].kind == Untune
    ensures FateInv(ctx, ReadUntune(s, o))
  {
    var u, h := ReadUntune(s, o), s.mem[o].handle;
    ReadOtherForward(cfg, s, u, o);
    ForwardKeeps(s, u, h);
    if !u.consumer.Taking? {
      UntuneInVain(cfg, ctx, s, o);
      assert Undone(u, h);
    }
    forall k | k in u.rm.active ensures StaysInTime(s, u, k) {
    }
    forall p | p in u.mem ensures StaysTimed(s, u, p) && Explained(ctx, s, u, p) {
    }
    StepKeepsFate(cfg, ctx, s, u);
  }

  // An untune that finds no completed tune finds none, or one that is going to be
  // dropped.
  lemma UntuneInVain(cfg: Config, ctx: Ctx, s: Sys, o: nat)
    requires Core(cfg, s) && HistoryInv(s) && FateInv(ctx, s) && s.consumer == Popped(o) && s.mem[o].kind == Untune
    requires var h := s.mem[o].handle; h in s.rm.active ==> !s.rm.active[h].completed
    ensures Undone(s, s.mem[o].handle)
  {
    var h := s.mem[o].handle;
    assert TimedOk(s, o) && PlaceOk(s, o);
    assert h in s.rm.active ==> EntryOk(s, h);
  }

  lemma ReadRetuneFate(cfg: Config, ctx: Ctx, s: Sys, o: nat)
    requires Core(cfg, s) && HistoryInv(s) && FateInv(ctx, s) && s.consumer == Popped(o) && s.mem[o].kind == Retune
    ensures FateInv(ctx, Freed(s.(consumer := Idle), o))
  {
    var u := Freed(s.(consumer := Idle), o);
    ReadOtherForward(cfg, s, u, o);
    CalmKeepsFate(cfg, ctx, s, u);
  }

  lemma InsertFate(cfg: Config, ctx: Ctx, s: Sys, mode: Mode)
    requires Core(cfg, s) && HistoryInv(s) && FateInv(ctx, s) && Shape(ctx, s.table)
    ensures FateInv(ctx, DoInsert(ctx, s, mode))
  {
    if s.consumer.Marked? {
      var o := s.consumer.o;
      WantedIsAccepted(ctx, s.mem[o]);
      if Accepted(ctx, s.mem[o].items, s.mem[o].prio) == 0 {
        RefusedFate(cfg, ctx, s, DoInsert(ctx, s, mode), o);
      } else {
        SettledFate(cfg, ctx, s, DoInsert(ctx, s, mode), o);
      }
    }
  }

  lemma RefusedFate(cfg: Config, ctx: Ctx, s: Sys, u: Sys, o: nat)
    requires Core(cfg, s) && HistoryInv(s) && FateInv(ctx, s) && s.consumer == Marked(o) && !Wanted(ctx, s.mem[o])
    requires u == s.(table := u.table, consumer := Dropping(o))
    ensures FateInv(ctx, u)
  {
    RefusedForward(cfg, s, o);
    forall h | h in u.rm.active ensures Successor(s, u, h) && StaysInTime(s, u, h) {
      assert EntryOk(s, h);
    }
    assert forall h :: Arriving(u, h) <==> Arriving(s, h);
    forall p | p in u.mem ensures StaysTimed(s, u, p) && Explained(ctx, s, u, p) {
    }
    StepKeepsFate(cfg, ctx, s, u);
  }

  lemma SettledFate(cfg: Config, ctx: Ctx, s: Sys, u: Sys, o: nat)
    requires Core(cfg, s) && HistoryInv(s) && FateInv(ctx, s) && s.consumer == Marked(o) && Wanted(ctx, s.mem[o])
    requires u == Settled(s.(table := u.table), o)
    ensures FateInv(ctx, u)
  {
    forall h | h in u.rm.active ensures Successor(s, u, h) && StaysInTime(s, u, h) {
      assert EntryOk(s, h);
    }
    assert forall h :: Arriving(u, h) <==> Arriving(s, h);
    forall p | p in u.mem ensures StaysTimed(s, u, p) && Explained(ctx, s, u, p) {
      assert p != o && s.mem[p].kind == Tune ==> Apart(s.mem[p], s.mem[o]);
    }
    StepKeepsFate(cfg, ctx, s, u);
  }

  lemma DropFate(cfg: Config, ctx: Ctx, s: Sys, o: nat)
    requires Core(cfg, s) && HistoryInv(s) && FateInv(ctx, s) && s.consumer == Dropping(o)
    ensures FateInv(ctx, DoDrop(s))
  {
    var u := DoDrop(s);
    assert TuneMapped(s, o);
    forall h | h in u.rm.active ensures Successor(s, u, h) && StaysInTime(s, u, h) {
      assert EntryOk(s, h);
    }
    assert forall h :: Arriving(u, h) <==> Arriving(s, h);
    forall p | p in u.mem ensures StaysTimed(s, u, p) && Explained(ctx, s, u, p) {
      assert p != o && s.mem[p].kind == Tune ==> Apart(s.mem[p], s.mem[o]);
    }
    StepKeepsFate(cfg, ctx, s, u);
  }

  lemma TakeFate(cfg: Config, ctx: Ctx, s: Sys, mode: Mode)
    requires Core(cfg, s) && HistoryInv(s) && FateInv(ctx, s) && Shape(ctx, s.table)
    ensures FateInv(ctx, DoTake(ctx, s, mode))
  {
    if s.consumer.Taking? {
      var o, t, u := s.consumer.o, s.consumer.target, DoTake(ctx, s, mode);
      TakeForward(cfg, ctx, s, mode, o, t);
      WithoutMembers(s.tabled, t);
      forall h | h in u.rm.active ensures StaysInTime(s, u, h) {
        assert EntryOk(s, h);
      }
      forall p | p in u.mem ensures StaysTimed(s, u, p) && Explained(ctx, s, u, p) {
      }
      StepKeepsFate(cfg, ctx, s, u);
    }
  }

  lemma ReleaseFate(cfg: Config, ctx: Ctx, s: Sys, o: nat, t: nat)
    requires Core(cfg, s) && HistoryInv(s) && FateInv(ctx, s) && s.consumer == Taken(o, t)
    ensures FateInv(ctx, DoRelease(s))
  {
    var u, h := DoRelease(s), s.mem[t].handle;
    ReleaseForward(cfg, s, u, o, t);
    assert TuneMapped(s, t);
    ActiveIsClosed(cfg, s, h);
    ClosedKept(s, u, h);
    forall p | p in u.mem ensures StaysTimed(s, u, p) && Explained(ctx, s, u, p) {
      assert p != t && s.mem[p].kind == Tune ==> Apart(s.mem[p], s.mem[t]);
    }
    StepKeepsFate(cfg, ctx, s, u);
  }

  lemma ReleaseForward(cfg: Config, s: Sys, u: Sys, o: nat, t: nat)
    requires Core(cfg, s) && s.consumer == Taken(o, t) && u == DoRelease(s)
    ensures Forward(s, u) && forall k {:trigger StaysInTime(s, u, k)} :: k in u.rm.active ==> StaysInTime(s, u, k)
  {
    assert TuneMapped(s, t);
    forall k | k in u.rm.active ensures Successor(s, u, k) && StaysInTime(s, u, k) {
      assert EntryOk(s, k);
    }
    assert forall k :: Arriving(u, k) <==> Arriving(s, k);
  }

  // ---- Any step, and every run ----

  lemma ProducerFate(cfg: Config, ctx: Ctx, s: Sys, e: Step)
    requires Core(cfg, s) && HistoryInv(s) && FateInv(ctx, s) && ByProducer(e)
    ensures FateInv(ctx, ProducerStep(cfg, s, e))
  {
    match e
    case NewThread(pid, tid) => NewThreadFate(cfg, ctx, s, pid, tid);
    case NewTune(r, items) => NewTuneFate(cfg, ctx, s, r, items);
    case Register(o) => RegisterFate(cfg, ctx, s, o);
    case Enqueue(o) => EnqueueFate(cfg, ctx, s, o);
    case NewUntune(r) => ArriveFate(cfg, ctx, s, r, Untune, Arrived);
    case NewRetune(r) => ArriveFate(cfg, ctx, s, r, Retune, Received);
    case Expire(t, o) => ExpireFate(cfg, ctx, s, t, o);
  }

  lemma ArrivalFate(cfg: Config, ctx: Ctx, s: Sys, e: Step)
    requires Core(cfg, s) && HistoryInv(s) && FateInv(ctx, s) && Sound(ctx, s) && OnArrival(e)
    ensures FateInv(ctx, ArrivalStep(ctx, s, e))
  {
    match e
    case DisableHandle(o) =>
      SoundCanPop(ctx, s, 0);
      DisableFate(cfg, ctx, s, o);
    case Reject(o) => RejectFate(cfg, ctx, s, o);
    case CheckHandle(o) => CheckHandleFate(cfg, ctx, s, o);
    case Pop(o) => PopFate(cfg, ctx, s, o);
  }

  lemma ConsumerFate(cfg: Config, ctx: Ctx, s: Sys, e: Step)
    requires Core(cfg, s) && HistoryInv(s) && FateInv(ctx, s) && !ByProducer(e) && !OnArrival(e) && !OnTable(e)
    ensures FateInv(ctx, ConsumerStep(s, e))
  {
    match e
    case ReadStatus =>
      if s.consumer.Popped? {
        match s.mem[s.consumer.o].kind
        case Tune => ReadTuneFate(cfg, ctx, s, s.consumer.o);
        case Untune => ReadUntuneFate(cfg, ctx, s, s.consumer.o);
        case Retune => ReadRetuneFate(cfg, ctx, s, s.consumer.o);
      }
    case MarkComplete => MarkCompleteFate(cfg, ctx, s);
    case Drop =>
      if s.consumer.Dropping? {
        DropFate(cfg, ctx, s, s.consumer.o);
      }
    case Release =>
      if s.consumer.Taken? {
        ReleaseFate(cfg, ctx, s, s.consumer.o, s.consumer.target);
      }
  }

  lemma NextFate(cfg: Config, ctx: Ctx, s: Sys, e: Step)
    requires Core(cfg, s) && HistoryInv(s) && FateInv(ctx, s) && Sound(ctx, s)
    ensures FateInv(ctx, Next(cfg, ctx, s, e))
  {
    if ByProducer(e) {
      ProducerFate(cfg, ctx, s, e);
    } else if OnArrival(e) {
      ArrivalFate(cfg, ctx, s, e);
    } else if e.InsertIntoTable? {
      InsertFate(cfg, ctx, s, e.mode);
    } else if e.TakeFromTable? {
      TakeFate(cfg, ctx, s, e.mode);
    } else {
      ConsumerFate(cfg, ctx, s, e);
    }
  }

  lemma {:induction false} RunFate(cfg: Config, ctx: Ctx, steps: seq<Step>)
    ensures FateInv(ctx, Run(cfg, ctx, steps))
  {
    if steps != [] {
      var init := steps[..|steps| - 1];
      RunFate(cfg, ctx, init);
      RunCore(cfg, ctx, init);
      NextFate(cfg, ctx, Run(cfg, ctx, init), steps[|steps| - 1]);
    }
  }

  // In every reachable state a tune is in the table, or is being taken out,
  // exactly if it has been consumed, no untune came before its status was read,
  // the table has a slot for some entry of it, and no untune of its handle, by
  // a client or by a timer, has been consumed.
  lemma AppliedIff(cfg: Config, ctx: Ctx, steps: seq<Step>, o: nat)
    ensures var s := Run(cfg, ctx, steps);
      o in s.mem && s.mem[o].kind == Tune ==>
        var h := s.mem[o].handle;
        Applied(s, o) <==> h in s.tuneDone && h !in s.precancelled && Wanted(ctx, s.mem[o]) && h !in s.untuned
  {
    RunFate(cfg, ctx, steps);
    RunCore(cfg, ctx, steps);
    var s := Run(cfg, ctx, steps);
    if o in s.mem && s.mem[o].kind == Tune {
      FateDecides(cfg, ctx, s, o);
    }
  }

  lemma FateDecides(cfg: Config, ctx: Ctx, s: Sys, o: nat)
    requires Core(cfg, s) && HistoryInv(s) && FateInv(ctx, s) && o in s.mem && s.mem[o].kind == Tune
    ensures var h := s.mem[o].handle;
      Applied(s, o) <==> h in s.tuneDone && h !in s.precancelled && Wanted(ctx, s.mem[o]) && h !in s.untuned
  {
    assert FateOk(ctx, s, o) && Worthy(ctx, s, o) && TuneMapped(s, o) && PlaceOk(s, o);
    if Applied(s, o) {
      assert EntryOk(s, s.mem[o].handle);
    }
  }

  // ---- Getting through ----

  // Nothing is queued and the consumer waits.
  ghost predicate AtRest(s: Sys) {
    s.consumer == Idle && s.queue == multiset{}
  }

  // What the consumer does with a tune it has popped.
  ghost function Entering(ctx: Ctx, s: Sys, mode: Mode): Sys
    requires Shape(ctx, s.table)
  {
    DoInsert(ctx, DoMarkComplete(DoReadStatus(s)), mode)
  }

  // What it does with an untune.
  ghost function Leaving(ctx: Ctx, s: Sys, mode: Mode): Sys
    requires Shape(ctx, s.table)
  {
    DoRelease(DoTake(ctx, DoReadStatus(s), mode))
  }

  // The consumer gets to a message that is the only one.
  ghost function Reaching(s: Sys, o: nat): (u: Sys)
    ensures u.table == s.table
  {
    DoPop(DoEnqueue(s, o), o)
  }

  lemma ReachesIt(s: Sys, o: nat)
    requires AtRest(s) && o in s.flights && Enqueueable(s.flights[o]) && o in s.mem
    requires s.mem[o].prio > SERVER_CLEANUP_TRIGGER_PRIORITY
    ensures Reaching(s, o) == s.(flights := s.flights - {o}, consumer := Popped(o))
  {
    assert s.queue + multiset{o} - multiset{o} == s.queue;
  }

  // A tune that is neither cancelled nor completed, and that the table wants, goes in.
  lemma PoppedGoesIn(ctx: Ctx, s: Sys, o: nat, mode: Mode)
    requires Shape(ctx, s.table) && s.consumer == Popped(o) && o in s.mem && s.mem[o].kind == Tune
    requires var h := s.mem[o].handle; h in s.rm.active && s.rm.active[h] == Entry(s.mem[o], false, false)
    requires Wanted(ctx, s.mem[o])
    ensures var u, r := Entering(ctx, s, mode), s.mem[o];
      && u.consumer == Idle && u.queue == s.queue && u.tabled == s.tabled + [o]
      && u.table == InsertAll(ctx, mode, s.table, r.items, r.prio)
      && u.rm.active == s.rm.active[r.handle := Entry(r, false, true)]
  {
    WantedIsAccepted(ctx, s.mem[o]);
    var marked := DoMarkComplete(DoReadStatus(s));
    assert marked == s.(consumer := Marked(o), rm := Complete(s.rm, s.mem[o].handle));
  }

  // A completed tune comes out, and both objects are freed.
  lemma PoppedTakesOut(ctx: Ctx, s: Sys, o: nat, t: nat, mode: Mode)
    requires Shape(ctx, s.table) && s.consumer == Popped(o) && o in s.mem && s.mem[o].kind == Untune && t in s.mem
    requires var h := s.mem[o].handle; h in s.rm.active && s.rm.active[h].completed && s.rm.active[h].req.obj == t
    requires s.mem[t].handle == s.mem[o].handle
    ensures var u, r := Leaving(ctx, s, mode), s.mem[t];
      && u.consumer == Idle && u.queue == s.queue && u.tabled == Without(s.tabled, t)
      && u.table == RemoveAll(ctx, mode, s.table, r.items, r.prio)
      && u.rm.active == s.rm.active - {r.handle} && u.frees == s.frees + [o] + [t]
  {
  }

  // What a producer does with a tune that has passed verification.
  ghost function Tuning(cfg: Config, s: Sys, r: Req, items: nat): (u: Sys)
    ensures u.table == s.table
  {
    DoRegister(cfg, DoNewTune(cfg, s, r, items), r.obj)
  }

  lemma TuneIsCarried(cfg: Config, s: Sys, r: Req, items: nat)
    requires CanTune(cfg, s, r, items) && CheckAndAdd(cfg, s.rm, r).ok && r.handle !in s.rm.active
    ensures var u := Tuning(cfg, s, r, items);
      && u.mem == s.mem[r.obj := r] && u.flights == s.flights[r.obj := Registered] && u.queue == s.queue
      && u.consumer == s.consumer && u.table == s.table && u.tabled == s.tabled && u.frees == s.frees
      && u.rm.active == s.rm.active[r.handle := Entry(r, false, false)]
  {
    AdmissionAdds(cfg, s.rm, r);
  }

  // An admitted tune that the table wants goes from its producer into the table.
  lemma TuneGoesIn(cfg: Config, ctx: Ctx, s: Sys, r: Req, items: nat, mode: Mode)
    requires Shape(ctx, s.table) && AtRest(s) && CanTune(cfg, s, r, items)
    requires CheckAndAdd(cfg, s.rm, r).ok && r.handle !in s.rm.active && Wanted(ctx, r)
    ensures var u := Entering(ctx, Reaching(Tuning(cfg, s, r, items), r.obj), mode);
      && AtRest(u) && u.tabled == s.tabled + [r.obj]
      && u.table == InsertAll(ctx, mode, s.table, r.items, r.prio)
      && u.rm.active == s.rm.active[r.handle := Entry(r, false, true)]
  {
    TuneIsCarried(cfg, s, r, items);
    CarriedGoesIn(ctx, s, Tuning(cfg, s, r, items), r, mode);
  }

  lemma CarriedGoesIn(ctx: Ctx, s: Sys, c: Sys, r: Req, mode: Mode)
    requires Shape(ctx, s.table) && AtRest(s) && r.kind == Tune && Level(r.prio) && Wanted(ctx, r)
    requires c.mem == s.mem[r.obj := r] && c.flights == s.flights[r.obj := Registered] && c.queue == s.queue
    requires c.consumer == s.consumer && c.table == s.table && c.tabled == s.tabled
    requires c.rm.active == s.rm.active[r.handle := Entry(r, false, false)]
    ensures var u := Entering(ctx, Reaching(c, r.obj), mode);
      && AtRest(u) && u.tabled == s.tabled + [r.obj]
      && u.table == InsertAll(ctx, mode, s.table, r.items, r.prio)
      && u.rm.active == s.rm.active[r.handle := Entry(r, false, true)]
  {
    var popped := c.(flights := c.flights - {r.obj}, consumer := Popped(r.obj));
    assert Reaching(c, r.obj) == popped by {
      ReachesIt(c, r.obj);
    }
    PoppedGoesIn(ctx, popped, r.obj, mode);
    SetTwice(s.rm.active, r.handle, Entry(r, false, false), Entry(r, false, true));
  }

  lemma SetTwice<V>(m: map<int, V>, k: int, a: V, b: V)
    ensures m[k := a][k := b] == m[k := b]
  {
  }

  // When its timer fires, a tune in the table leaves it, is forgotten, and is freed.
  lemma TimerTakesOut(cfg: Config, ctx: Ctx, s: Sys, t: nat, o: nat, mode: Mode)
    requires Core(cfg, s) && Shape(ctx, s.table) && AtRest(s) && t in s.tabled && t in s.mem && o !in s.mem
    ensures var u := Leaving(ctx, Reaching(DoExpire(s, t, o), o), mode);
      && AtRest(u) && u.tabled == Without(s.tabled, t) && u.frees == s.frees + [o] + [t]
      && u.table == RemoveAll(ctx, mode, s.table, s.mem[t].items, s.mem[t].prio)
      && u.rm.active == s.rm.active - {s.mem[t].handle}
  {
    TabledIsCompleted(cfg, s, t);
    ReachesIt(DoExpire(s, t, o), o);
    PoppedTakesOut(ctx, Reaching(DoExpire(s, t, o), o), o, t, mode);
  }

  lemma TabledIsCompleted(cfg: Config, s: Sys, t: nat)
    requires Core(cfg, s) && t in s.tabled && t in s.mem
    ensures var h := s.mem[t].handle; h in s.rm.active && s.rm.active[h].completed && s.rm.active[h].req.obj == t
    ensures Level(s.mem[t].prio)
  {
    assert TuneMapped(s, t) && EntryOk(s, s.mem[t].handle);
    assert TuneOk(cfg, s.mem[t], s.issued, s.ownerOf);
  }

  // What a producer does with an untune of an active handle.
  ghost function Untuning(s: Sys, r: Req): (u: Sys)
    requires Popping(s.rm.cache) ==> s.rm.cache.queue != []
    ensures u.table == s.table
  {
    DoCheckHandle(DoDisable(DoArrive(s, r, Untune, Arrived), r.obj), r.obj)
  }

  lemma UntuneIsCarried(s: Sys, r: Req)
    requires Popping(s.rm.cache) ==> s.rm.cache.queue != []
    requires r.obj !in s.mem && r.kind == Untune && r.items == [] && r.handle in s.rm.active
    ensures var u := Untuning(s, r);
      && u.mem == s.mem[r.obj := r] && u.flights == s.flights[r.obj := Stage.Checked] && u.queue == s.queue
      && u.consumer == s.consumer && u.table == s.table && u.tabled == s.tabled && u.frees == s.frees
      && u.rm.active == s.rm.active[r.handle := s.rm.active[r.handle].(cancelled := true)]
  {
  }

  // So it does when a client untunes it.
  lemma UntuneTakesOut(cfg: Config, ctx: Ctx, s: Sys, t: nat, r: Req, mode: Mode)
    requires Core(cfg, s) && Shape(ctx, s.table) && AtRest(s) && t in s.tabled && t in s.mem
    requires Popping(s.rm.cache) ==> s.rm.cache.queue != []
    requires r.obj !in s.mem && r.kind == Untune && r.items == [] && r.handle == s.mem[t].handle
    requires r.prio > SERVER_CLEANUP_TRIGGER_PRIORITY
    ensures var u := Leaving(ctx, Reaching(Untuning(s, r), r.obj), mode);
      && AtRest(u) && u.tabled == Without(s.tabled, t) && u.frees == s.frees + [r.obj] + [t]
      && u.table == RemoveAll(ctx, mode, s.table, s.mem[t].items, s.mem[t].prio)
      && u.rm.active == s.rm.active - {r.handle}
  {
    TabledIsCompleted(cfg, s, t);
    UntuneIsCarried(s, r);
    CarriedTakesOut(ctx, s, Untuning(s, r), t, r, mode);
  }

  lemma CarriedTakesOut(ctx: Ctx, s: Sys, c: Sys, t: nat, r: Req, mode: Mode)
    requires Shape(ctx, s.table) && AtRest(s) && t in s.mem && r.kind == Untune && r.obj !in s.mem
    requires r.prio > SERVER_CLEANUP_TRIGGER_PRIORITY && r.handle == s.mem[t].handle
    requires r.handle in s.rm.active && s.rm.active[r.handle].completed && s.rm.active[r.handle].req.obj == t
    requires c.mem == s.mem[r.obj := r] && c.flights == s.flights[r.obj := Stage.Checked] && c.queue == s.queue
    requires c.consumer == s.consumer && c.table == s.table && c.tabled == s.tabled && c.frees == s.frees
    requires c.rm.active == s.rm.active[r.handle := s.rm.active[r.handle].(cancelled := true)]
    ensures var u := Leaving(ctx, Reaching(c, r.obj), mode);
      && AtRest(u) && u.tabled == Without(s.tabled, t) && u.frees == s.frees + [r.obj] + [t]
      && u.table == RemoveAll(ctx, mode, s.table, s.mem[t].items, s.mem[t].prio)
      && u.rm.active == s.rm.active - {r.handle}
  {
    ReachesIt(c, r.obj);
    PoppedTakesOut(ctx, Reaching(c, r.obj), r.obj, t, mode);
  }
}
