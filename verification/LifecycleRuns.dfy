// Whole runs of the request lifecycle: what holds in every reachable state,
// however the steps of the producers, the timers and the consumer interleave.

module LifecycleRuns {
  import opened Types
  import opened ListOrder
  import opened CocoSpec
  import opened Coordinator
  import opened LruCaches
  import opened ClientData
  import opened RequestManagers
  import opened Lifecycle
  import opened LifecycleSafety
  import opened LifecycleTable
  import opened LifecycleIndex
  import opened LifecycleHistory

  // What the steps need to be able to happen at all.
  ghost predicate Sound(ctx: Ctx, s: Sys) {
    Shape(ctx, s.table) && Contained(s.rm.cache)
  }

  lemma SoundCanPop(ctx: Ctx, s: Sys, x: int)
    requires Sound(ctx, s)
    ensures Popping(s.rm.cache) ==> s.rm.cache.queue != []
    ensures Contained(InsertValue(s.rm.cache, x))
  {
    ContainedInsert(s.rm.cache, x);
  }

  lemma DisableSound(ctx: Ctx, s: Sys, o: nat)
    requires Sound(ctx, s)
    ensures Popping(s.rm.cache) ==> s.rm.cache.queue != []
    ensures Sound(ctx, DoDisable(s, o))
    ensures DoDisable(s, o).table == s.table && DoDisable(s, o).tabled == s.tabled && DoDisable(s, o).mem == s.mem
  {
    SoundCanPop(ctx, s, if o in s.mem then s.mem[o].handle else 0);
  }

  predicate ByProducer(e: Step) {
    e.NewThread? || e.NewTune? || e.Register? || e.Enqueue? || e.NewUntune? || e.NewRetune? || e.Expire?
  }

  predicate OnArrival(e: Step) {
    e.DisableHandle? || e.Reject? || e.CheckHandle? || e.Pop?
  }

  predicate OnTable(e: Step) {
    e.InsertIntoTable? || e.TakeFromTable?
  }

  ghost function ProducerStep(cfg: Config, s: Sys, e: Step): (u: Sys)
    requires ByProducer(e)
    ensures u.table == s.table && u.tabled == s.tabled && u.rm.cache == s.rm.cache
  {
    match e
    case NewThread(pid, tid) => DoNewThread(s, pid, tid)
    case NewTune(r, items) => DoNewTune(cfg, s, r, items)
    case Register(o) => DoRegister(cfg, s, o)
    case Enqueue(o) => DoEnqueue(s, o)
    case NewUntune(r) => DoArrive(s, r, Untune, Arrived)
    case NewRetune(r) => DoArrive(s, r, Retune, Received)
    case Expire(t, o) => DoExpire(s, t, o)
  }

  ghost function ArrivalStep(ctx: Ctx, s: Sys, e: Step): (u: Sys)
    requires OnArrival(e) && Sound(ctx, s)
    ensures Sound(ctx, u)
    ensures u.table == s.table && u.tabled == s.tabled && u.mem == s.mem
  {
    match e
    case DisableHandle(o) =>
      DisableSound(ctx, s, o);
      DoDisable(s, o)
    case Reject(o) => DoReject(s, o)
    case CheckHandle(o) => DoCheckHandle(s, o)
    case Pop(o) => DoPop(s, o)
  }

  ghost function TableStep(ctx: Ctx, s: Sys, e: Step): (u: Sys)
    requires OnTable(e) && Sound(ctx, s)
    ensures Sound(ctx, u)
    ensures u.rm == s.rm && u.flights == s.flights && u.mem == s.mem
  {
    match e
    case InsertIntoTable(mode) => DoInsert(ctx, s, mode)
    case TakeFromTable(mode) => DoTake(ctx, s, mode)
  }

  ghost function ConsumerStep(s: Sys, e: Step): (u: Sys)
    requires !ByProducer(e) && !OnArrival(e) && !OnTable(e)
    ensures u.table == s.table && u.tabled == s.tabled && u.mem == s.mem && u.flights == s.flights
    ensures u.rm.cache == s.rm.cache
  {
    match e
    case ReadStatus => DoReadStatus(s)
    case MarkComplete => DoMarkComplete(s)
    case Drop => DoDrop(s)
    case Release => DoRelease(s)
  }

  // A step that cannot happen changes nothing.
  ghost function Next(cfg: Config, ctx: Ctx, s: Sys, e: Step): (u: Sys)
    requires Sound(ctx, s)
    ensures Sound(ctx, u)
  {
    if ByProducer(e) then ProducerStep(cfg, s, e)
    else if OnArrival(e) then ArrivalStep(ctx, s, e)
    else if OnTable(e) then TableStep(ctx, s, e)
    else ConsumerStep(s, e)
  }

  function Start(ctx: Ctx): Sys {
    Sys(map[], Rm(map[], Lru(DEFAULT_CACHE_SIZE, {}, []), map[]), map[], multiset{}, Idle, EmptyTable(ctx), [], [], {},
        0, map[],
        {}, {}, {}, {}, {})
  }

  // A run of steps from a given state, and from the start.
  ghost function After(cfg: Config, ctx: Ctx, s: Sys, steps: seq<Step>): (u: Sys)
    requires Sound(ctx, s)
    ensures Sound(ctx, u)
  {
    if steps == [] then s
    else Next(cfg, ctx, After(cfg, ctx, s, steps[..|steps| - 1]), steps[|steps| - 1])
  }

  ghost function Run(cfg: Config, ctx: Ctx, steps: seq<Step>): (s: Sys)
    ensures Sound(ctx, s)
  {
    EmptyTableAgrees(ctx, {});
    After(cfg, ctx, Start(ctx), steps)
  }

  lemma RunAppend(cfg: Config, ctx: Ctx, trace: seq<Step>, e: Step)
    ensures Run(cfg, ctx, trace + [e]) == Next(cfg, ctx, Run(cfg, ctx, trace), e)
  {
    assert (trace + [e])[..|trace|] == trace;
  }

  // Nothing is lost but messages below or at the clean-up priority.
  ghost predicate Accounted(s: Sys, o: nat)
    requires o in s.mem
  {
    Places(s, o) == 1 || o in s.frees || s.mem[o].prio <= SERVER_CLEANUP_TRIGGER_PRIORITY
  }

  ghost predicate NoLeak(s: Sys) {
    forall o {:trigger Accounted(s, o)} :: o in s.mem ==> Accounted(s, o)
  }

  ghost predicate Inv(cfg: Config, ctx: Ctx, s: Sys, modes: set<Mode>) {
    Core(cfg, s) && IndexInv(cfg, s) && HistoryInv(s) && NoLeak(s) && TableInv(ctx, s, modes)
  }

  // ---- One step ----

  lemma ProducerCore(cfg: Config, s: Sys, e: Step)
    requires Core(cfg, s) && ByProducer(e)
    ensures Core(cfg, ProducerStep(cfg, s, e))
  {
    match e
    case NewThread(pid, tid) => NewThreadCore(cfg, s, pid, tid);
    case NewTune(r, items) => NewTuneCore(cfg, s, r, items);
    case Register(o) =>
      if o in s.flights && s.flights[o] == Verified && o in s.mem {
        assert TuneMapped(s, o);
        var a := CheckAndAdd(cfg, s.rm, s.mem[o]);
        if a.ok {
          AdmittedCore(cfg, s, a.rm, o);
        } else {
          DiscardedCore(cfg, s, a.rm, o);
        }
      }
    case Enqueue(o) =>
      if o in s.flights && Enqueueable(s.flights[o]) && o in s.mem {
        assert s.mem[o].kind == Tune ==> TuneOk(cfg, s.mem[o], s.issued, s.ownerOf);
        if s.mem[o].prio >= SERVER_CLEANUP_TRIGGER_PRIORITY {
          QueuedCore(cfg, s, o);
        } else {
          LostCore(cfg, s, o);
        }
      }
    case NewUntune(r) => ArriveCore(cfg, s, r, Untune, Arrived);
    case NewRetune(r) => ArriveCore(cfg, s, r, Retune, Received);
    case Expire(t, o) =>
      if t in s.tabled && t in s.mem && o !in s.mem {
        var r := s.mem[t];
        BroughtCore(cfg, s, Req(o, Untune, r.handle, r.prio, r.pid, r.tid, 0, []), Expired);
      }
  }

  lemma ArriveCore(cfg: Config, s: Sys, r: Req, kind: ReqKind, stage: Stage)
    requires Core(cfg, s) && kind != Tune && StageFits(stage, kind)
    ensures Core(cfg, DoArrive(s, r, kind, stage))
  {
    if r.kind == kind && r.obj !in s.mem && r.items == [] {
      BroughtCore(cfg, s, r, stage);
    }
  }

  // Marking an entry as cancelled.
  lemma CancelledCore(cfg: Config, s: Sys, o: nat)
    requires Core(cfg, s) && o in s.flights && s.flights[o] == Arrived && s.mem[o].handle in s.rm.active
    requires Popping(s.rm.cache) ==> s.rm.cache.queue != []
    ensures Core(cfg, Staged(s, Disable(s.rm, s.mem[o].handle).rm, o, Disabled))
  {
    var h := s.mem[o].handle;
    var t := s.rm.active[h].req.obj;
    var u := Staged(s, Disable(s.rm, h).rm, o, Disabled);
    assert EntryOk(s, h);
    assert PlaceOk(s, o) && PlaceOk(s, t);
    assert TuneMapped(s, o) && TuneMapped(s, t);
    MoveKeepsMap(cfg, s, u, o, t);
  }

  lemma DisableCore(cfg: Config, s: Sys, o: nat)
    requires Core(cfg, s) && (Popping(s.rm.cache) ==> s.rm.cache.queue != [])
    ensures Core(cfg, DoDisable(s, o))
  {
    if o in s.flights && s.flights[o] == Arrived && o in s.mem {
      var h := s.mem[o].handle;
      var a := Disable(s.rm, h);
      if h in s.rm.active {
        CancelledCore(cfg, s, o);
        SameButHistory(cfg, Staged(s, a.rm, o, Disabled), DoDisable(s, o));
      } else {
        DiscardedCore(cfg, s, a.rm, o);
      }
    }
  }

  lemma SameButHistory(cfg: Config, s: Sys, u: Sys)
    requires Core(cfg, s)
    requires u == s.(clientUntunes := u.clientUntunes, precancelled := u.precancelled, tuneDone := u.tuneDone,
                     untuneDone := u.untuneDone, untuned := u.untuned)
    ensures Core(cfg, u)
  {
    forall o ensures PlaceOk(u, o) {
      assert PlaceOk(s, o);
    }
    forall h | h in u.rm.active ensures EntryOk(u, h) {
      assert EntryOk(s, h);
    }
    forall o | o in u.mem ensures TuneMapped(u, o) {
      assert TuneMapped(s, o);
    }
  }

  lemma ArrivalCore(cfg: Config, ctx: Ctx, s: Sys, e: Step)
    requires Core(cfg, s) && Sound(ctx, s) && OnArrival(e)
    ensures Core(cfg, ArrivalStep(ctx, s, e))
  {
    match e
    case DisableHandle(o) =>
      SoundCanPop(ctx, s, 0);
      DisableCore(cfg, s, o);
    case Reject(o) =>
      if o in s.flights && Rejectable(s.flights[o]) {
        DiscardedCore(cfg, s, s.rm, o);
      }
    case CheckHandle(o) =>
      if o in s.flights && Checkable(s.flights[o]) && o in s.mem {
        if s.mem[o].handle in s.rm.active {
          RestagedCore(cfg, s, o, Checked);
        } else {
          DiscardedCore(cfg, s, s.rm, o);
        }
      }
    case Pop(o) =>
      if o in s.mem && s.mem[o].kind == Tune {
        assert TuneOk(cfg, s.mem[o], s.issued, s.ownerOf);
      }
      if DoPop(s, o) != s {
        DequeuedCore(cfg, s, o, DoPop(s, o).consumer);
      }
  }

  lemma ConsumerCore(cfg: Config, s: Sys, e: Step)
    requires Core(cfg, s) && !ByProducer(e) && !OnArrival(e) && !OnTable(e)
    ensures Core(cfg, ConsumerStep(s, e))
  {
    match e
    case ReadStatus =>
      if s.consumer.Popped? {
        match s.mem[s.consumer.o].kind
        case Tune => ReadTuneCore(cfg, s, s.consumer.o);
        case Untune => ReadUntuneCore(cfg, s, s.consumer.o);
        case Retune => ReadRetuneCore(cfg, s, s.consumer.o);
      }
    case MarkComplete =>
      if s.consumer.Accepting? {
        MarkCompleteCore(cfg, s, s.consumer.o);
      }
    case Drop =>
      if s.consumer.Dropping? {
        DropCore(cfg, s, s.consumer.o);
      }
    case Release =>
      if s.consumer.Taken? {
        ReleaseCore(cfg, s, s.consumer.o, s.consumer.target);
      }
  }

  lemma TableCore(cfg: Config, ctx: Ctx, s: Sys, e: Step)
    requires Core(cfg, s) && Sound(ctx, s) && OnTable(e)
    ensures Core(cfg, TableStep(ctx, s, e))
  {
    match e
    case InsertIntoTable(mode) =>
      if s.consumer.Marked? {
        var o := s.consumer.o;
        var r := s.mem[o];
        var u := s.(table := InsertAll(ctx, mode, s.table, r.items, r.prio));
        OtherTable(cfg, s, u);
        if Accepted(ctx, r.items, r.prio) == 0 {
          RefusedCore(cfg, u, o);
        } else {
          SettledCore(cfg, u, o);
        }
      }
    case TakeFromTable(mode) =>
      if s.consumer.Taking? {
        TakeCore(cfg, ctx, s, mode, s.consumer.o, s.consumer.target);
      }
  }

  lemma OtherTable(cfg: Config, s: Sys, u: Sys)
    requires Core(cfg, s) && u == s.(table := u.table)
    ensures Core(cfg, u)
    ensures HistoryInv(s) ==> HistoryInv(u)
  {
    forall o ensures PlaceOk(u, o) {
      assert PlaceOk(s, o);
    }
    forall h | h in u.rm.active ensures EntryOk(u, h) {
      assert EntryOk(s, h);
    }
    forall o | o in u.mem ensures TuneMapped(u, o) {
      assert TuneMapped(s, o);
    }
    assert Forward(s, u) by {
      forall h | h in u.rm.active ensures Successor(s, u, h) {
        assert EntryOk(s, h);
      }
    }
    if HistoryInv(s) {
      HistoryStep(s, u);
    }
  }

  lemma NextCore(cfg: Config, ctx: Ctx, s: Sys, e: Step)
    requires Core(cfg, s) && Sound(ctx, s)
    ensures Core(cfg, Next(cfg, ctx, s, e))
  {
    if ByProducer(e) {
      ProducerCore(cfg, s, e);
    } else if OnArrival(e) {
      ArrivalCore(cfg, ctx, s, e);
    } else if OnTable(e) {
      TableCore(cfg, ctx, s, e);
    } else {
      ConsumerCore(cfg, s, e);
    }
  }

  lemma ProducerIndex(cfg: Config, s: Sys, e: Step)
    requires Core(cfg, s) && IndexInv(cfg, s) && ByProducer(e)
    ensures IndexInv(cfg, ProducerStep(cfg, s, e))
  {
    match e
    case NewThread(pid, tid) => NewThreadIndex(cfg, s, pid, tid);
    case Register(o) => RegisterIndex(cfg, s, o);
    case _ => assert ProducerStep(cfg, s, e).rm == s.rm;
  }

  lemma ArrivalIndex(cfg: Config, ctx: Ctx, s: Sys, e: Step)
    requires IndexInv(cfg, s) && Sound(ctx, s) && OnArrival(e)
    ensures IndexInv(cfg, ArrivalStep(ctx, s, e))
  {
    if e.DisableHandle? {
      DisableIndex(cfg, s, e.o);
    } else {
      assert ArrivalStep(ctx, s, e).rm == s.rm;
    }
  }

  // The other steps of the consumer leave the request manager alone.
  lemma {:induction false} SameManager(s: Sys, e: Step)
    requires !ByProducer(e) && !OnArrival(e) && !OnTable(e) && !e.MarkComplete?
    requires !(e.Drop? && s.consumer.Dropping?) && !(e.Release? && s.consumer.Taken?)
    ensures ConsumerStep(s, e).rm == s.rm && ConsumerStep(s, e).ownerOf == s.ownerOf
  {
  }

  lemma {:induction false} ConsumerIndex(cfg: Config, s: Sys, e: Step)
    requires Core(cfg, s) && IndexInv(cfg, s) && !ByProducer(e) && !OnArrival(e) && !OnTable(e)
    ensures IndexInv(cfg, ConsumerStep(s, e))
  {
    if e.MarkComplete? {
      MarkCompleteIndex(cfg, s);
    } else if e.Drop? && s.consumer.Dropping? {
      ForgetIndex(cfg, s, s.consumer.o);
    } else if e.Release? && s.consumer.Taken? {
      ForgetIndex(cfg, s, s.consumer.target);
    } else {
      SameManager(s, e);
    }
  }

  lemma NextIndex(cfg: Config, ctx: Ctx, s: Sys, e: Step)
    requires Core(cfg, s) && Sound(ctx, s) && IndexInv(cfg, s)
    ensures IndexInv(cfg, Next(cfg, ctx, s, e))
  {
    if ByProducer(e) {
      ProducerIndex(cfg, s, e);
    } else if OnArrival(e) {
      ArrivalIndex(cfg, ctx, s, e);
    } else if !OnTable(e) {
      ConsumerIndex(cfg, s, e);
    }
  }

  lemma ProducerHistory(cfg: Config, s: Sys, e: Step)
    requires Core(cfg, s) && HistoryInv(s) && ByProducer(e)
    ensures HistoryInv(ProducerStep(cfg, s, e))
  {
    match e {
      case NewThread(pid, tid) => NewThreadForward(cfg, s, pid, tid);
      case NewTune(r, items) => NewTuneForward(cfg, s, r, items);
      case Register(o) => RegisterForward(cfg, s, o);
      case Enqueue(o) => EnqueueForward(cfg, s, o);
      case NewUntune(r) => ArriveForward(cfg, s, r, Untune, Arrived);
      case NewRetune(r) => ArriveForward(cfg, s, r, Retune, Received);
      case Expire(t, o) => ExpireForward(cfg, s, t, o);
    }
    HistoryStep(s, ProducerStep(cfg, s, e));
  }

  lemma ArrivalHistory(cfg: Config, ctx: Ctx, s: Sys, e: Step)
    requires Core(cfg, s) && Sound(ctx, s) && HistoryInv(s) && OnArrival(e)
    ensures HistoryInv(ArrivalStep(ctx, s, e))
  {
    match e {
      case DisableHandle(o) => SoundCanPop(ctx, s, 0); DisableHistory(cfg, s, o);
      case Reject(o) => RejectForward(cfg, s, o); HistoryStep(s, DoReject(s, o));
      case CheckHandle(o) => CheckHandleForward(cfg, s, o); HistoryStep(s, DoCheckHandle(s, o));
      case Pop(o) => PopForward(cfg, s, o); HistoryStep(s, DoPop(s, o));
    }
  }

  lemma ConsumerHistory(cfg: Config, s: Sys, e: Step)
    requires Core(cfg, s) && HistoryInv(s) && !ByProducer(e) && !OnArrival(e) && !OnTable(e)
    ensures HistoryInv(ConsumerStep(s, e))
  {
    match e
    case ReadStatus => ReadStatusHistory(cfg, s);
    case MarkComplete => MarkCompleteForward(cfg, s); HistoryStep(s, DoMarkComplete(s));
    case Drop =>
      if s.consumer.Dropping? {
        DropHistory(cfg, s, s.consumer.o);
      }
    case Release =>
      if s.consumer.Taken? {
        ReleaseHistory(cfg, s, s.consumer.o, s.consumer.target);
      }
  }

  lemma NextHistory(cfg: Config, ctx: Ctx, s: Sys, e: Step)
    requires Core(cfg, s) && Sound(ctx, s) && HistoryInv(s)
    ensures HistoryInv(Next(cfg, ctx, s, e))
  {
    if ByProducer(e) {
      ProducerHistory(cfg, s, e);
    } else if OnArrival(e) {
      ArrivalHistory(cfg, ctx, s, e);
    } else if e.InsertIntoTable? {
      InsertHistory(cfg, ctx, s, e.mode);
    } else if e.TakeFromTable? {
      if s.consumer.Taking? {
        TakeForward(cfg, ctx, s, e.mode, s.consumer.o, s.consumer.target);
        HistoryStep(s, DoTake(ctx, s, e.mode));
      }
    } else {
      ConsumerHistory(cfg, s, e);
    }
  }

  lemma InsertHistory(cfg: Config, ctx: Ctx, s: Sys, mode: Mode)
    requires Core(cfg, s) && HistoryInv(s) && Shape(ctx, s.table)
    ensures HistoryInv(DoInsert(ctx, s, mode))
  {
    if s.consumer.Marked? {
      var o := s.consumer.o;
      var r := s.mem[o];
      var u := s.(table := InsertAll(ctx, mode, s.table, r.items, r.prio));
      OtherTable(cfg, s, u);
      if Accepted(ctx, r.items, r.prio) == 0 {
        RefusedForward(cfg, u, o);
        HistoryStep(u, u.(consumer := Dropping(o)));
      } else {
        SettledHistory(cfg, u, o);
      }
    }
  }

  lemma NextTable(cfg: Config, ctx: Ctx, s: Sys, e: Step, modes: set<Mode>)
    requires Core(cfg, s) && Sound(ctx, s) && TableInv(ctx, s, modes)
    requires OnTable(e) ==> e.mode in modes
    ensures TableInv(ctx, Next(cfg, ctx, s, e), modes)
  {
    if e.InsertIntoTable? && s.consumer.Marked? {
      InsertTable(cfg, ctx, s, e.mode, s.consumer.o, modes);
    } else if e.TakeFromTable? && s.consumer.Taking? {
      TakeTable(cfg, ctx, s, e.mode, s.consumer.o, s.consumer.target, modes);
    } else {
      OtherStepsLeaveTable(cfg, ctx, s, e);
      TableUntouched(ctx, s, Next(cfg, ctx, s, e), modes);
    }
  }

  lemma OtherStepsLeaveTable(cfg: Config, ctx: Ctx, s: Sys, e: Step)
    requires Sound(ctx, s)
    requires (e.InsertIntoTable? ==> !s.consumer.Marked?) && (e.TakeFromTable? ==> !s.consumer.Taking?)
    ensures var u := Next(cfg, ctx, s, e);
      u.table == s.table && u.tabled == s.tabled && forall o :: o in s.mem ==> o in u.mem && u.mem[o] == s.mem[o]
  {
  }

  lemma NewThreadAccounts(cfg: Config, s: Sys, pid: int, tid: int)
    requires NoLeak(s)
    ensures NoLeak(DoNewThread(s, pid, tid))
  {
    var u := DoNewThread(s, pid, tid);
    forall o | o in u.mem ensures Accounted(u, o) {
      assert Accounted(s, o);
    }
  }

  lemma NewTuneAccounts(cfg: Config, s: Sys, r: Req, items: nat)
    requires Core(cfg, s) && NoLeak(s)
    ensures NoLeak(DoNewTune(cfg, s, r, items))
  {
    var u := DoNewTune(cfg, s, r, items);
    forall o | o in u.mem ensures Accounted(u, o) {
      assert PlaceOk(s, o);
      assert o in s.mem ==> Accounted(s, o);
    }
  }

  lemma RegisterAccounts(cfg: Config, s: Sys, p: nat)
    requires Core(cfg, s) && NoLeak(s)
    ensures NoLeak(DoRegister(cfg, s, p))
  {
    var u := DoRegister(cfg, s, p);
    forall o | o in u.mem ensures Accounted(u, o) {
      assert PlaceOk(s, o);
      assert o in s.mem ==> Accounted(s, o);
    }
  }

  lemma EnqueueAccounts(cfg: Config, s: Sys, p: nat)
    requires Core(cfg, s) && NoLeak(s)
    ensures NoLeak(DoEnqueue(s, p))
  {
    var u := DoEnqueue(s, p);
    forall o | o in u.mem ensures Accounted(u, o) {
      assert PlaceOk(s, o);
      assert o in s.mem ==> Accounted(s, o);
    }
  }

  lemma ArriveAccounts(cfg: Config, s: Sys, r: Req, kind: ReqKind, stage: Stage)
    requires Core(cfg, s) && NoLeak(s)
    ensures NoLeak(DoArrive(s, r, kind, stage))
  {
    var u := DoArrive(s, r, kind, stage);
    forall o | o in u.mem ensures Accounted(u, o) {
      assert PlaceOk(s, o);
      assert o in s.mem ==> Accounted(s, o);
    }
  }

  lemma ExpireAccounts(cfg: Config, s: Sys, t: nat, p: nat)
    requires Core(cfg, s) && NoLeak(s)
    ensures NoLeak(DoExpire(s, t, p))
  {
    var u := DoExpire(s, t, p);
    forall o | o in u.mem ensures Accounted(u, o) {
      assert PlaceOk(s, o);
      assert o in s.mem ==> Accounted(s, o);
    }
  }

  lemma ProducerAccounts(cfg: Config, s: Sys, e: Step)
    requires Core(cfg, s) && NoLeak(s) && ByProducer(e)
    ensures NoLeak(ProducerStep(cfg, s, e))
  {
    match e
    case NewThread(pid, tid) => NewThreadAccounts(cfg, s, pid, tid);
    case NewTune(r, items) => NewTuneAccounts(cfg, s, r, items);
    case Register(o) => RegisterAccounts(cfg, s, o);
    case Enqueue(o) => EnqueueAccounts(cfg, s, o);
    case NewUntune(r) => ArriveAccounts(cfg, s, r, Untune, Arrived);
    case NewRetune(r) => ArriveAccounts(cfg, s, r, Retune, Received);
    case Expire(t, o) => ExpireAccounts(cfg, s, t, o);
  }

  lemma DisableAccounts(cfg: Config, s: Sys, p: nat)
    requires Core(cfg, s) && NoLeak(s) && (Popping(s.rm.cache) ==> s.rm.cache.queue != [])
    ensures NoLeak(DoDisable(s, p))
  {
    var u := DoDisable(s, p);
    forall o | o in u.mem ensures Accounted(u, o) {
      assert PlaceOk(s, o);
      assert o in s.mem ==> Accounted(s, o);
    }
  }

  lemma ArrivalAccounts(cfg: Config, ctx: Ctx, s: Sys, e: Step)
    requires Core(cfg, s) && Sound(ctx, s) && NoLeak(s) && OnArrival(e)
    ensures NoLeak(ArrivalStep(ctx, s, e))
  {
    var u := ArrivalStep(ctx, s, e);
    SoundCanPop(ctx, s, 0);
    if e.DisableHandle? {
      DisableAccounts(cfg, s, e.o);
    } else {
      forall o | o in u.mem ensures Accounted(u, o) {
        assert PlaceOk(s, o);
        assert o in s.mem ==> Accounted(s, o);
      }
    }
  }

  lemma TableAccounts(cfg: Config, ctx: Ctx, s: Sys, e: Step)
    requires Core(cfg, s) && Sound(ctx, s) && NoLeak(s) && OnTable(e)
    ensures NoLeak(TableStep(ctx, s, e))
  {
    var u := TableStep(ctx, s, e);
    if s.consumer.Taking? {
      WithoutMembers(s.tabled, s.consumer.target);
    }
    forall o | o in u.mem ensures Accounted(u, o) {
      assert PlaceOk(s, o);
      assert o in s.mem ==> Accounted(s, o);
    }
  }

  lemma ConsumerAccounts(cfg: Config, s: Sys, e: Step)
    requires Core(cfg, s) && NoLeak(s) && !ByProducer(e) && !OnArrival(e) && !OnTable(e)
    ensures NoLeak(ConsumerStep(s, e))
  {
    var u := ConsumerStep(s, e);
    forall o | o in u.mem ensures Accounted(u, o) {
      assert PlaceOk(s, o);
      assert o in s.mem ==> Accounted(s, o);
    }
  }

  lemma NextAccounts(cfg: Config, ctx: Ctx, s: Sys, e: Step)
    requires Core(cfg, s) && Sound(ctx, s) && NoLeak(s)
    ensures NoLeak(Next(cfg, ctx, s, e))
  {
    if ByProducer(e) {
      ProducerAccounts(cfg, s, e);
    } else if OnArrival(e) {
      ArrivalAccounts(cfg, ctx, s, e);
    } else if OnTable(e) {
      TableAccounts(cfg, ctx, s, e);
    } else {
      ConsumerAccounts(cfg, s, e);
    }
  }

  // ---- Every run ----

  // The display modes a run goes through while it works on the table.
  predicate Within(steps: seq<Step>, modes: set<Mode>) {
    forall i :: 0 <= i < |steps| && OnTable(steps[i]) ==> steps[i].mode in modes
  }

  lemma StartInv(cfg: Config, ctx: Ctx, modes: set<Mode>)
    ensures Inv(cfg, ctx, Start(ctx), modes)
  {
    EmptyTableAgrees(ctx, modes);
  }

  lemma NextInv(cfg: Config, ctx: Ctx, s: Sys, e: Step, modes: set<Mode>)
    requires Inv(cfg, ctx, s, modes) && Sound(ctx, s) && (OnTable(e) ==> e.mode in modes)
    ensures Inv(cfg, ctx, Next(cfg, ctx, s, e), modes)
  {
    NextCore(cfg, ctx, s, e);
    NextIndex(cfg, ctx, s, e);
    NextHistory(cfg, ctx, s, e);
    NextAccounts(cfg, ctx, s, e);
    NextTable(cfg, ctx, s, e, modes);
  }

  lemma {:induction false} AfterInv(cfg: Config, ctx: Ctx, s: Sys, steps: seq<Step>, modes: set<Mode>)
    requires Inv(cfg, ctx, s, modes) && Sound(ctx, s) && Within(steps, modes)
    ensures Inv(cfg, ctx, After(cfg, ctx, s, steps), modes)
  {
    if steps != [] {
      AfterInv(cfg, ctx, s, steps[..|steps| - 1], modes);
      NextInv(cfg, ctx, After(cfg, ctx, s, steps[..|steps| - 1]), steps[|steps| - 1], modes);
    }
  }

  // The safety theorem: every reachable state satisfies all invariants.
  lemma RunInv(cfg: Config, ctx: Ctx, steps: seq<Step>, modes: set<Mode>)
    requires Within(steps, modes)
    ensures Inv(cfg, ctx, Run(cfg, ctx, steps), modes)
  {
    StartInv(cfg, ctx, modes);
    AfterInv(cfg, ctx, Start(ctx), steps, modes);
  }

  const ALL_MODES: set<Mode> := {Resume, Suspend, Doze}

  lemma RunCore(cfg: Config, ctx: Ctx, steps: seq<Step>)
    ensures Inv(cfg, ctx, Run(cfg, ctx, steps), ALL_MODES)
  {
    forall i | 0 <= i < |steps| && OnTable(steps[i]) ensures steps[i].mode in ALL_MODES {
      assert steps[i].mode.Resume? || steps[i].mode.Suspend? || steps[i].mode.Doze?;
    }
    RunInv(cfg, ctx, steps, ALL_MODES);
  }

  // The admitted tunes are those waiting and those in the table, never both,
  // and the active map holds exactly them.
  lemma OwnershipPartition(cfg: Config, ctx: Ctx, steps: seq<Step>, o: nat)
    ensures var s := Run(cfg, ctx, steps);
      o in s.mem && s.mem[o].kind == Tune ==>
        && !(Awaiting(s, o) && Applied(s, o))
        && (Awaiting(s, o) || Applied(s, o)
            <==> s.mem[o].handle in s.rm.active && s.rm.active[s.mem[o].handle].req.obj == o)
  {
    var s := Run(cfg, ctx, steps);
    RunCore(cfg, ctx, steps);
    assert PlaceOk(s, o);
    if o in s.mem && s.mem[o].kind == Tune {
      assert TuneMapped(s, o);
      assert s.mem[o].handle in s.rm.active ==> EntryOk(s, s.mem[o].handle);
    }
  }

  // No object is freed twice, nothing that can still be reached has been freed,
  // and nothing is forgotten without being freed.
  lemma FreedOnceAndOnly(cfg: Config, ctx: Ctx, steps: seq<Step>, o: nat, h: int)
    ensures var s := Run(cfg, ctx, steps);
      && NoDup(s.frees)
      && (o in s.flights || s.queue[o] > 0 || Held(s.consumer, o) || o in s.tabled ==> o in s.mem && o !in s.frees)
      && (h in s.rm.active ==> s.rm.active[h].req.obj in s.mem && s.rm.active[h].req.obj !in s.frees)
      && (o in s.mem && o !in s.frees && s.mem[o].prio > SERVER_CLEANUP_TRIGGER_PRIORITY ==> Places(s, o) == 1)
  {
    var s := Run(cfg, ctx, steps);
    RunCore(cfg, ctx, steps);
    assert PlaceOk(s, o);
    assert o in s.mem ==> Accounted(s, o);
    assert h in s.rm.active ==> EntryOk(s, h) && PlaceOk(s, s.rm.active[h].req.obj);
  }

  // Both untune guarantees, in every reachable state.
  lemma UntuneSafety(cfg: Config, ctx: Ctx, steps: seq<Step>, o: nat, h: int)
    ensures var s := Run(cfg, ctx, steps);
      && (o in s.mem && s.mem[o].kind == Tune && s.mem[o].handle in s.precancelled
          ==> !Applied(s, o) && s.consumer != Marked(o))
      && (h in s.tuneDone && h in s.untuneDone ==> h !in s.rm.active)
      && (h in s.tuneDone && h in s.untuneDone && o in s.mem && s.mem[o].kind == Tune && s.mem[o].handle == h
          ==> !Applied(s, o) && !Awaiting(s, o))
  {
    var s := Run(cfg, ctx, steps);
    RunCore(cfg, ctx, steps);
    if o in s.mem && s.mem[o].kind == Tune && s.mem[o].handle in s.precancelled {
      CancelledStaysOut(cfg, s, o);
    }
    if h in s.tuneDone && h in s.untuneDone {
      UntunedForGood(cfg, s, h);
    }
  }

  // When the producers are done and the queue is drained, the active requests
  // are the ones in the table, and no handle whose untune was consumed is among
  // them.
  lemma Quiescent(cfg: Config, ctx: Ctx, steps: seq<Step>, h: int)
    requires var s := Run(cfg, ctx, steps); s.flights == map[] && s.queue == multiset{} && s.consumer == Idle
    ensures var s := Run(cfg, ctx, steps);
      && (h in s.rm.active <==> exists t :: t in s.tabled && t in s.mem && s.mem[t].handle == h)
      && (h in s.untuneDone ==> h !in s.rm.active)
  {
    var s := Run(cfg, ctx, steps);
    RunCore(cfg, ctx, steps);
    if h in s.rm.active {
      assert EntryOk(s, h);
      assert s.rm.active[h].req.obj in s.tabled;
      assert h in s.untuneDone ==> Undone(s, h);
    } else {
      forall t | t in s.tabled && t in s.mem ensures s.mem[t].handle != h {
        assert TuneMapped(s, t);
      }
    }
  }

  // Admission and the index, in every reachable state.
  lemma IndexAgrees(cfg: Config, ctx: Ctx, steps: seq<Step>, t: int, a: int, b: int)
    ensures var s := Run(cfg, ctx, steps);
      && |s.rm.active| <= cfg.maxActive
      && (t in s.rm.handles ==> s.rm.handles[t] == set h | h in s.rm.active && s.rm.active[h].req.tid == t)
      && (a in s.rm.active ==> s.rm.active[a].req.tid in s.rm.handles)
      && (a in s.rm.active && b in s.rm.active && a != b ==> !Twins(cfg, s.rm, a, b))
  {
    var s := Run(cfg, ctx, steps);
    RunCore(cfg, ctx, steps);
    if t in s.rm.handles {
      HandleSetsAreActive(cfg, s, t);
    }
    assert a in s.rm.active ==> Recorded(s.rm, s.rm.active[a].req.tid, a);
    assert a in s.rm.active && b in s.rm.active && a != b ==> !Twins(cfg, s.rm, a, b);
  }

  predicate OfSystem(cfg: Config, r: Req) {
    LevelOf(cfg, r.pid) == Some(PermissionSystem)
  }

  predicate SystemLevel(r: Req) {
    LevelAllows(PermissionSystem, r.prio)
  }

  // While a tune of a system level holds a global list-managed resource, the
  // value in force on it comes from a tune of a system level. That is a system
  // client's exactly if its level is one that its client may have: always for a
  // verified tune, not always for a trusted one.
  lemma SystemBeatsThirdParty(cfg: Config, ctx: Ctx, steps: seq<Step>, modes: set<Mode>, row: int, t: nat, x: Item)
    returns (w: nat, y: Item)
    requires Within(steps, modes)
    requires GlobalManaged(ctx, row) && modes <= ctx.confs[row].modes
    requires var s := Run(cfg, ctx, steps);
      && t in s.tabled && t in s.mem && SystemLevel(s.mem[t])
      && x in s.mem[t].items && Target(ctx, x.res, s.mem[t].prio) == Some(Slot(row, s.mem[t].prio))
    ensures var s := Run(cfg, ctx, steps);
      && w in s.tabled && w in s.mem && SystemLevel(s.mem[w])
      && y in s.mem[w].items && InForce(s.table.log, row) == Some(y)
      && (OfSystem(cfg, s.mem[w]) <==> PriorityMatchesLevel(cfg, s.mem[w]))
  {
    var s := Run(cfg, ctx, steps);
    RunInv(cfg, ctx, steps, modes);
    var reqs := AsTunes(s.mem, s.tabled);
    var live := Flatten(reqs);
    var k :| 0 <= k < |s.tabled| && s.tabled[k] == t;
    var i := FlattenHas(reqs, k, x);
    assert OnRow(ctx, live, row, i);
    assert Arbitrated(s.table, row, 0);
    var v := SystemFirst(ctx, s.table, live, row, i);
    y := live[v].item;
    w := TuneAsImportant(cfg, ctx, s, modes, t, live[v]);
    LevelDecides(cfg, s.mem[w]);
  }

  lemma LevelDecides(cfg: Config, r: Req)
    requires SystemLevel(r)
    ensures OfSystem(cfg, r) <==> PriorityMatchesLevel(cfg, r)
  {
  }

  // A live entry as important as a tune of a system level belongs to one.
  lemma TuneAsImportant(cfg: Config, ctx: Ctx, s: Sys, modes: set<Mode>, t: nat, l: Live) returns (w: nat)
    requires Core(cfg, s) && TableInv(ctx, s, modes) && t in s.tabled && t in s.mem && SystemLevel(s.mem[t])
    requires l in Flatten(AsTunes(s.mem, s.tabled)) && l.prio <= s.mem[t].prio
    ensures w in s.tabled && w in s.mem && l.item in s.mem[w].items && SystemLevel(s.mem[w])
  {
    var reqs := AsTunes(s.mem, s.tabled);
    FlattenMembers(reqs, l);
    var j :| 0 <= j < |reqs| && l.item in reqs[j].items && l.prio == reqs[j].prio;
    w := s.tabled[j];
    assert w in s.tabled;
    assert TuneOk(cfg, s.mem[w], s.issued, s.ownerOf);
  }

  // In every reachable state the table is the function of the tunes in it that
  // it is meant to be, and the global list-managed resources are arbitrated.
  lemma TableIsArbitrated(cfg: Config, ctx: Ctx, steps: seq<Step>, modes: set<Mode>)
    requires Within(steps, modes)
    ensures var s := Run(cfg, ctx, steps);
      && (forall i :: 0 <= i < |s.tabled| ==> s.tabled[i] in s.mem)
      && Agrees(ctx, s.table, Flatten(AsTunes(s.mem, s.tabled)))
      && AllArbitrated(ctx, s.table, modes)
  {
    RunInv(cfg, ctx, steps, modes);
  }
}
