// The queue of messages and the server thread's loop over it, shown to be a run
// of consumer steps of the request lifecycle.

module RequestQueues {
  import opened Types
  import opened ListOrder
  import opened CocoSpec
  import opened LinkedTables
  import opened ClientData
  import opened RequestManagers
  import opened Lifecycle
  import opened LifecycleRuns
  import LifecycleFates

  // Some queued message is served first.
  lemma {:induction false} SomeFirst(mem: map<nat, Req>, q: set<nat>)
    requires q != {} && forall o :: o in q ==> o in mem
    ensures exists o :: First(mem, q, o)
    decreases |q|
  {
    SomeMember(q);
    var x :| x in q;
    var rest := q - {x};
    if rest == {} {
      assert q == {x};
      assert First(mem, q, x);
    } else {
      SomeFirst(mem, rest);
      var y :| First(mem, rest, y);
      var m := if mem[x].prio <= mem[y].prio then x else y;
      forall p | p in q ensures p in mem && mem[m].prio <= mem[p].prio {
        assert p != x ==> p in rest;
      }
      assert First(mem, q, m);
    }
  }

  function Members(q: multiset<nat>): set<nat> {
    set p | p in q
  }

  predicate First(mem: map<nat, Req>, q: set<nat>, o: nat) {
    o in q && o in mem && forall p :: p in q ==> p in mem && mem[o].prio <= mem[p].prio
  }

  // What a step of the consumer has done.
  ghost predicate Effect(s: Sys, u: Sys, consumer: Consumer, rm: Rm, table: Table, tabled: seq<nat>, frees: seq<nat>) {
    && u.consumer == consumer && u.rm == rm && u.table == table && u.tabled == tabled && u.frees == frees
    && u.mem == s.mem && u.queue == s.queue
  }

  lemma TuneRead(cfg: Config, ctx: Ctx, s: Sys, o: nat)
    requires Sound(ctx, s) && o in s.mem && s.consumer == Popped(o) && s.mem[o].kind == Tune
    ensures Effect(s, Next(cfg, ctx, s, ReadStatus), ReadTune(s, o).consumer, s.rm, s.table, s.tabled, s.frees)
  {
  }

  lemma UntuneRead(cfg: Config, ctx: Ctx, s: Sys, o: nat)
    requires Sound(ctx, s) && o in s.mem && s.consumer == Popped(o) && s.mem[o].kind == Untune
    ensures Effect(s, Next(cfg, ctx, s, ReadStatus),
                  ReadUntune(s, o).consumer, s.rm, s.table, s.tabled,
                  if ReadUntune(s, o).consumer == Idle then s.frees + [o] else s.frees)
  {
  }

  lemma RetuneRead(cfg: Config, ctx: Ctx, s: Sys, o: nat)
    requires Sound(ctx, s) && o in s.mem && s.consumer == Popped(o) && s.mem[o].kind == Retune
    ensures Effect(s, Next(cfg, ctx, s, ReadStatus), Idle, s.rm, s.table, s.tabled, s.frees + [o])
  {
  }

  lemma MarkedComplete(cfg: Config, ctx: Ctx, s: Sys, o: nat)
    requires Sound(ctx, s) && o in s.mem && s.consumer == Accepting(o)
    ensures Effect(s, Next(cfg, ctx, s, MarkComplete), Marked(o), Complete(s.rm, s.mem[o].handle), s.table, s.tabled,
                   s.frees)
  {
  }

  lemma Inserted(cfg: Config, ctx: Ctx, s: Sys, o: nat, mode: Mode)
    requires Sound(ctx, s) && o in s.mem && s.consumer == Marked(o)
    ensures Effect(s, Next(cfg, ctx, s, InsertIntoTable(mode)),
                  if Accepted(ctx, s.mem[o].items, s.mem[o].prio) == 0 then Dropping(o) else Idle,
                  s.rm, InsertAll(ctx, mode, s.table, s.mem[o].items, s.mem[o].prio),
                  if Accepted(ctx, s.mem[o].items, s.mem[o].prio) == 0 then s.tabled else s.tabled + [o], s.frees)
  {
  }

  lemma Dropped(cfg: Config, ctx: Ctx, s: Sys, o: nat)
    requires Sound(ctx, s) && o in s.mem && s.consumer == Dropping(o)
    ensures Effect(s, Next(cfg, ctx, s, Drop), Idle, Forget(s.rm, s.mem[o]), s.table, s.tabled, s.frees + [o])
  {
  }

  lemma TakenOut(cfg: Config, ctx: Ctx, s: Sys, o: nat, t: nat, mode: Mode)
    requires Sound(ctx, s) && o in s.mem && s.consumer == Taking(o, t) && t in s.mem
    ensures Effect(s, Next(cfg, ctx, s, TakeFromTable(mode)),
                  Taken(o, t), s.rm, RemoveAll(ctx, mode, s.table, s.mem[t].items, s.mem[t].prio),
                  Without(s.tabled, t), s.frees)
  {
  }

  lemma Released(cfg: Config, ctx: Ctx, s: Sys, o: nat, t: nat)
    requires Sound(ctx, s) && o in s.mem && s.consumer == Taken(o, t) && t in s.mem
    ensures Effect(s, Next(cfg, ctx, s, Release), Idle, Forget(s.rm, s.mem[t]), s.table, s.tabled, s.frees + [o] + [t])
  {
  }

  lemma PoppedOff(cfg: Config, ctx: Ctx, s: Sys, o: nat)
    requires Sound(ctx, s) && s.consumer == Idle && First(s.mem, Members(s.queue), o)
    ensures var u := Next(cfg, ctx, s, Pop(o));
      && u.consumer == (if s.mem[o].prio == SERVER_CLEANUP_TRIGGER_PRIORITY then Idle else Popped(o))
      && u.rm == s.rm && u.table == s.table && u.tabled == s.tabled && u.frees == s.frees
      && u.mem == s.mem && u.queue == s.queue - multiset{o}
  {
    forall p | s.queue[p] > 0 && p in s.mem ensures s.mem[o].prio <= s.mem[p].prio {
      assert p in Members(s.queue);
    }
  }

  // What is known of the permissions of processes is true.
  ghost predicate TrueLevels(cfg: Config, repo: map<int, ClientInfo>) {
    forall p :: p in repo ==> repo[p].level == LevelOf(cfg, p)
  }

  lemma HandedOver(cfg: Config, ctx: Ctx, s: Sys, o: nat)
    requires Sound(ctx, s) && o in s.flights && Enqueueable(s.flights[o]) && o in s.mem
    ensures var u := Next(cfg, ctx, s, Enqueue(o));
      && u.queue == s.queue + (if s.mem[o].prio >= SERVER_CLEANUP_TRIGGER_PRIORITY then multiset{o} else multiset{})
      && u.rm == s.rm && u.mem == s.mem && u.table == s.table && u.tabled == s.tabled && u.frees == s.frees
  {
  }

  lemma FirstIsLeast(mem: map<nat, Req>, q: multiset<nat>, o: nat)
    requires First(mem, Members(q), o)
    ensures o in q && o in mem && forall p :: p in q && p in mem ==> mem[o].prio <= mem[p].prio
  {
    forall p | p in q && p in mem ensures mem[o].prio <= mem[p].prio {
      assert p in Members(q);
    }
  }

  // A request is known to the linked table exactly if it is a tune, and as
  // what it asks for.
  ghost predicate TuneKnown(mem: map<nat, Req>, tunes: map<nat, Coordinator.TuneReq>, o: nat) {
    && (o in tunes <==> o in mem && mem[o].kind == Tune)
    && (o in tunes ==> tunes[o] == AsTune(mem[o]))
  }

  ghost predicate TunesKnown(mem: map<nat, Req>, tunes: map<nat, Coordinator.TuneReq>) {
    forall o {:trigger TuneKnown(mem, tunes, o)} :: TuneKnown(mem, tunes, o)
  }

  class RequestQueue {
    const cfg: Config
    const ctx: Ctx
    const requestManager: RequestManager
    ghost const modes: set<Mode>
    var mem: map<nat, Req>          // the requests by address
    var orderedQueue: multiset<nat>
    var elementCount: nat
    const linked: LinkedTable
    ghost var table: Table
    ghost var tabled: seq<nat>
    var freed: seq<nat>
    ghost var trace: seq<Step>
    ghost var state: Sys

    ghost function State(): Sys
      reads this`state
    {
      state
    }

    // The steps lead to s.
    ghost predicate Leads(steps: seq<Step>, s: Sys) {
      Run(cfg, ctx, steps) == s && Within(steps, modes)
    }

    // The same, but so that a proof looks at the run only where it asks for it.
    ghost predicate Reached(steps: seq<Step>, s: Sys) {
      forall run :: run == steps ==> Leads(run, s)
    }

    // The fields are those of a reachable state of the lifecycle, as is rm.
    ghost predicate Traced(rm: Rm)
      reads this
    {
      && state.rm == rm && state.mem == mem && state.queue == orderedQueue
      && state.table == table && state.tabled == tabled && state.frees == freed
      && elementCount == |orderedQueue|
      && Reached(trace, state)
    }

    ghost predicate Managed()
      reads requestManager, requestManager.clients, requestManager.untuneCache
    {
      requestManager.Valid() && requestManager.cfg == cfg && TrueLevels(cfg, requestManager.clients.clientRepo)
    }

    ghost predicate Coupled()
      reads this, requestManager, requestManager.clients, requestManager.untuneCache
    {
      Managed() && Traced(requestManager.View())
    }

    // The linked table is the table of that state. It knows the tunes, and as
    // what they ask for.
    ghost predicate Linked()
      reads this`mem, this`table, this`tabled, linked, linked.coco, linked.Repr
    {
      && linked.Valid() && linked.coco.ctx == ctx && Apart(linked.Repr)
      && linked.View() == table && linked.ledger.live == tabled && TunesKnown(mem, linked.ledger.tunes)
    }

    ghost predicate Apart(objects: set<object>) {
      && this !in objects && linked !in objects && requestManager !in objects
      && requestManager.clients !in objects && requestManager.untuneCache !in objects
    }

    ghost predicate Resting()
      reads this, requestManager, requestManager.clients, requestManager.untuneCache
    {
      Coupled() && State().consumer == Idle
    }

    ghost predicate Valid()
      reads this, requestManager, requestManager.clients, requestManager.untuneCache
      reads linked, linked.coco, linked.Repr
    {
      Resting() && Linked()
    }

    lemma Reachable()
      requires Reached(trace, state)
      ensures Inv(cfg, ctx, state, modes) && Sound(ctx, state)
    {
      assert Leads(trace, state);
      RunInv(cfg, ctx, trace, modes);
    }

    // One more step is possible.
    lemma Goes(e: Step)
      requires Reached(trace, state) && (OnTable(e) ==> e.mode in modes)
      ensures Sound(ctx, state) && Reached(trace + [e], Next(cfg, ctx, state, e))
    {
      assert Leads(trace, state);
      RunAppend(cfg, ctx, trace, e);
      forall run | run == trace + [e] ensures Leads(run, Next(cfg, ctx, state, e)) {
      }
    }

    constructor (cfg: Config, ctx: Ctx, requestManager: RequestManager, linked: LinkedTable, ghost modes: set<Mode>)
      requires requestManager.Valid() && requestManager.cfg == cfg && requestManager.View() == Start(ctx).rm
      requires TrueLevels(cfg, requestManager.clients.clientRepo)
      requires linked.Valid() && linked.coco.ctx == ctx && linked.View() == EmptyTable(ctx)
      requires linked.ledger.live == [] && linked.ledger.tunes == map[] && linked !in linked.Repr
      requires requestManager !in linked.Repr && requestManager.clients !in linked.Repr
      requires requestManager.untuneCache !in linked.Repr
      ensures Valid() && this.cfg == cfg && this.ctx == ctx && this.requestManager == requestManager
      ensures this.linked == linked && this.modes == modes && trace == [] && orderedQueue == multiset{}
    {
      this.cfg, this.ctx, this.requestManager, this.linked, this.modes := cfg, ctx, requestManager, linked, modes;
      mem, orderedQueue, elementCount, freed := map[], multiset{}, 0, [];
      table, tabled, trace, state := EmptyTable(ctx), [], [], Start(ctx);
      new;
      forall run: seq<Step> | run == [] ensures Leads(run, state) {
      }
    }

    function HasPendingTasks(): bool
      reads this`elementCount
    {
      elementCount > 0
    }

    // Takes step e of a producer to its end, the request manager having played
    // its part: object o may have to be freed.
    method Conclude(ghost e: Step, ghost u: Sys, o: nat, free: bool)
      requires Managed() && Linked() && Reached(trace + [e], u) && elementCount == |orderedQueue|
      requires
        && u.rm == requestManager.View() && u.mem == mem && u.queue == orderedQueue
        && u.table == table && u.tabled == tabled && u.frees == freed + if free then [o] else []
      modifies this`freed, this`trace, this`state
      ensures Coupled() && Linked() && trace == old(trace) + [e] && State() == u
    {
      freed := freed + if free then [o] else [];
      trace, state := trace + [e], u;
    }

    // Takes step e to its end, which brings a new request.
    method Bring(ghost e: Step, ghost u: Sys, r: Req)
      requires Managed() && Reached(trace + [e], u) && elementCount == |orderedQueue|
      requires
        && u.rm == requestManager.View() && u.mem == mem[r.obj := r] && u.queue == orderedQueue
        && u.table == table && u.tabled == tabled && u.frees == freed
      modifies this`mem, this`trace, this`state
      ensures Coupled() && trace == old(trace) + [e] && State() == u
      ensures mem == old(mem)[r.obj := r]
    {
      mem := mem[r.obj := r];
      trace, state := trace + [e], u;
    }

    // A producer hands over the request it carries.
    method AddAndWakeup(o: nat) returns (ok: bool)
      requires Coupled() && Linked() && o in State().flights && Enqueueable(State().flights[o]) && o in mem
      modifies this`orderedQueue, this`elementCount, this`trace, this`state
      ensures Coupled() && Linked() && trace == old(trace) + [Enqueue(o)]
      ensures ok <==> mem[o].prio >= SERVER_CLEANUP_TRIGGER_PRIORITY
      ensures orderedQueue == old(orderedQueue) + if ok then multiset{o} else multiset{}
    {
      Goes(Enqueue(o));
      ghost var u := Next(cfg, ctx, state, Enqueue(o));
      HandedOver(cfg, ctx, State(), o);
      ok := mem[o].prio >= SERVER_CLEANUP_TRIGGER_PRIORITY;
      if ok {
        orderedQueue := orderedQueue + multiset{o};
        elementCount := elementCount + 1;
      }
      trace, state := trace + [Enqueue(o)], u;
    }

    // Takes a message with the smallest priority value.
    method PopMessage() returns (o: nat)
      requires Resting() && HasPendingTasks()
      modifies this`orderedQueue, this`elementCount, this`trace, this`state
      ensures Coupled() && trace == old(trace) + [Pop(o)]
      ensures o in old(orderedQueue) && orderedQueue == old(orderedQueue) - multiset{o}
      ensures o in mem && forall p :: p in old(orderedQueue) && p in mem ==> mem[o].prio <= mem[p].prio
      ensures State().consumer == if mem[o].prio == SERVER_CLEANUP_TRIGGER_PRIORITY then Idle else Popped(o)
    {
      HasFirst();
      o :| o in orderedQueue && First(mem, Members(orderedQueue), o);
      FirstIsLeast(mem, orderedQueue, o);
      TakeOff(o);
    }

    method TakeOff(o: nat)
      requires Resting() && o in orderedQueue && First(mem, Members(orderedQueue), o)
      modifies this`orderedQueue, this`elementCount, this`trace, this`state
      ensures Coupled() && trace == old(trace) + [Pop(o)] && orderedQueue == old(orderedQueue) - multiset{o}
      ensures State().consumer == if mem[o].prio == SERVER_CLEANUP_TRIGGER_PRIORITY then Idle else Popped(o)
    {
      Goes(Pop(o));
      ghost var u := Next(cfg, ctx, state, Pop(o));
      PoppedOff(cfg, ctx, State(), o);
      orderedQueue := orderedQueue - multiset{o};
      elementCount := elementCount - 1;
      trace, state := trace + [Pop(o)], u;
    }

    lemma HasFirst()
      requires Coupled() && elementCount > 0
      ensures exists o :: o in orderedQueue && First(mem, Members(orderedQueue), o)
    {
      Reachable();
      forall p | p in orderedQueue ensures p in mem {
        assert PlaceOk(State(), p);
      }
      var p :| p in orderedQueue;
      assert p in Members(orderedQueue);
      SomeFirst(mem, Members(orderedQueue));
    }

    // The consumer frees a request it has popped and forgotten.
    method DropTune(o: nat)
      requires Coupled() && Linked() && State().consumer == Dropping(o) && o in mem
      modifies this`freed, this`trace, this`state, requestManager`activeRequests, requestManager.clients`tidRepo
      ensures Valid() && trace == old(trace) + [Drop] && mem[o].handle !in requestManager.activeRequests
    {
      Goes(Drop);
      ghost var u := Next(cfg, ctx, state, Drop);
      Dropped(cfg, ctx, State(), o);
      requestManager.RemoveRequest(mem[o]);
      freed := freed + [o];
      trace, state := trace + [Drop], u;
    }

    method CompleteTune(o: nat)
      requires Coupled() && Linked() && State().consumer == Accepting(o) && o in mem
      modifies this`trace, this`state, requestManager`activeRequests
      ensures Coupled() && Linked() && State().consumer == Marked(o) && trace == old(trace) + [MarkComplete]
    {
      Goes(MarkComplete);
      ghost var u := Next(cfg, ctx, state, MarkComplete);
      MarkedComplete(cfg, ctx, State(), o);
      requestManager.MarkRequestAsComplete(mem[o].handle);
      trace, state := trace + [MarkComplete], u;
    }

    // The tune the consumer is about to insert is not in the table yet.
    lemma NotInTable(o: nat)
      requires Coupled() && Linked() && State().consumer == Marked(o) && o in mem
      ensures o !in linked.ledger.live && o in linked.requests
      ensures o in linked.ledger.tunes && linked.ledger.tunes[o] == AsTune(mem[o])
    {
      Reachable();
      assert PlaceOk(State(), o);
      linked.Sound();
      assert TuneKnown(mem, linked.ledger.tunes, o);
    }

    // The table of the state becomes what the linked table has become.
    ghost method Advance(e: Step, u: Sys, rm: Rm, view: Table, live: seq<nat>, consumer: Consumer)
      requires Traced(rm) && Reached(trace + [e], u)
      requires Effect(State(), u, consumer, rm, view, live, freed)
      modifies this`trace, this`state, this`table, this`tabled
      ensures Traced(rm) && State().consumer == consumer && trace == old(trace) + [e]
      ensures table == view && tabled == live
    {
      table, tabled, trace, state := view, live, trace + [e], u;
    }

    method InsertTune(o: nat, mode: Mode) returns (ok: bool)
      requires Coupled() && Linked() && State().consumer == Marked(o) && o in mem && mode in modes
      modifies this`trace, this`state, this`table, this`tabled
      modifies linked`ledger, linked.Repr
      ensures Coupled() && Linked() && trace == old(trace) + [InsertIntoTable(mode)]
      ensures State().consumer == (if ok then Idle else Dropping(o))
      ensures ok <==> Accepted(ctx, mem[o].items, mem[o].prio) > 0
      ensures tabled == if ok then old(tabled) + [o] else old(tabled)
    {
      ghost var rm := requestManager.View();
      NotInTable(o);
      Goes(InsertIntoTable(mode));
      ghost var u := Next(cfg, ctx, state, InsertIntoTable(mode));
      Inserted(cfg, ctx, State(), o, mode);
      ok := linked.Insert(o, mode);
      Advance(InsertIntoTable(mode), u, rm, linked.View(), linked.ledger.live, if ok then Idle else Dropping(o));
    }

    method ReadTuneStatus(o: nat) returns (stop: bool)
      requires Coupled() && Linked() && State().consumer == Popped(o) && o in mem && mem[o].kind == Tune
      modifies this`trace, this`state
      ensures Coupled() && Linked() && trace == old(trace) + [ReadStatus]
      ensures State().consumer == if stop then Dropping(o) else Accepting(o)
      ensures stop <==> Spent(requestManager.activeRequests, mem[o].handle)
    {
      var status := requestManager.GetRequestFromMap(mem[o].handle);
      Goes(ReadStatus);
      ghost var u := Next(cfg, ctx, state, ReadStatus);
      TuneRead(cfg, ctx, State(), o);
      stop := status.Some? && (status.value.cancelled || status.value.completed);
      trace, state := trace + [ReadStatus], u;
    }

    // A tune that the table refuses is forgotten.
    method SettleTune(o: nat, mode: Mode)
      requires Coupled() && Linked() && State().consumer == Marked(o) && o in mem && mode in modes
      modifies this`freed, this`trace, this`state, this`table, this`tabled, requestManager`activeRequests
      modifies requestManager.clients`tidRepo
      modifies linked`ledger, linked.Repr
      ensures Valid()
      ensures if Accepted(ctx, mem[o].items, mem[o].prio) > 0 then
                trace == old(trace) + [InsertIntoTable(mode)] && tabled == old(tabled) + [o]
              else
                && trace == old(trace) + [InsertIntoTable(mode)] + [Drop] && tabled == old(tabled)
                && mem[o].handle !in requestManager.activeRequests
    {
      var ok := InsertTune(o, mode);
      if !ok {
        DropTune(o);
      }
    }

    method EnterTune(o: nat, mode: Mode)
      requires Coupled() && Linked() && State().consumer == Accepting(o) && o in mem && mode in modes
      modifies this`freed, this`trace, this`state, this`table, this`tabled, requestManager`activeRequests
      modifies requestManager.clients`tidRepo
      modifies linked`ledger, linked.Repr
      ensures Valid()
      ensures if Accepted(ctx, mem[o].items, mem[o].prio) > 0 then
                trace == old(trace) + [MarkComplete, InsertIntoTable(mode)] && tabled == old(tabled) + [o]
              else
                && trace == old(trace) + [MarkComplete, InsertIntoTable(mode), Drop] && tabled == old(tabled)
                && mem[o].handle !in requestManager.activeRequests
    {
      CompleteTune(o);
      SettleTune(o, mode);
    }

    // So is one that was cancelled or completed before; any other enters the
    // table as the newest one.
    method ProcessTune(o: nat, mode: Mode)
      requires Coupled() && Linked() && State().consumer == Popped(o) && o in mem && mem[o].kind == Tune
           && mode in modes
      modifies this`freed, this`trace, this`state, this`table, this`tabled, requestManager`activeRequests
      modifies requestManager.clients`tidRepo
      modifies linked`ledger, linked.Repr
      ensures Valid()
      ensures if old(Spent(requestManager.activeRequests, mem[o].handle)) then
                trace == old(trace) + [ReadStatus, Drop]
              else if Accepted(ctx, mem[o].items, mem[o].prio) > 0 then
                trace == old(trace) + [ReadStatus, MarkComplete, InsertIntoTable(mode)]
              else
                trace == old(trace) + [ReadStatus, MarkComplete, InsertIntoTable(mode), Drop]
      ensures if !old(Spent(requestManager.activeRequests, mem[o].handle))
                 && Accepted(ctx, mem[o].items, mem[o].prio) > 0 then
                tabled == old(tabled) + [o]
              else
                tabled == old(tabled) && mem[o].handle !in requestManager.activeRequests
    {
      var stop := ReadTuneStatus(o);
      if stop {
        DropTune(o);
      } else {
        EnterTune(o, mode);
      }
    }

    lemma TakingTabled(o: nat, t: nat)
      requires Coupled() && State().consumer == Taking(o, t) && t in mem
      ensures t in tabled && mem[t].kind == Tune
    {
      Reachable();
    }

    // The tune the consumer is about to remove is in the table.
    lemma StillInTable(o: nat, t: nat)
      requires Coupled() && Linked() && State().consumer == Taking(o, t) && t in mem
      ensures t in linked.ledger.live && t in linked.ledger.tunes && linked.ledger.tunes[t] == AsTune(mem[t])
    {
      TakingTabled(o, t);
      linked.Sound();
      assert TuneKnown(mem, linked.ledger.tunes, t);
    }

    method TakeTune(o: nat, t: nat, mode: Mode)
      requires Coupled() && Linked() && State().consumer == Taking(o, t) && o in mem && t in mem && mode in modes
      modifies this`trace, this`state, this`table, this`tabled
      modifies linked`ledger, linked.Repr
      ensures Coupled() && Linked() && State().consumer == Taken(o, t) && trace == old(trace) + [TakeFromTable(mode)]
      ensures t in old(tabled) && tabled == Without(old(tabled), t)
    {
      ghost var rm := requestManager.View();
      StillInTable(o, t);
      Goes(TakeFromTable(mode));
      ghost var u := Next(cfg, ctx, state, TakeFromTable(mode));
      TakenOut(cfg, ctx, State(), o, t, mode);
      linked.Remove(t, mode);
      Advance(TakeFromTable(mode), u, rm, linked.View(), linked.ledger.live, Taken(o, t));
    }

    method ReleaseTune(o: nat, t: nat)
      requires Coupled() && State().consumer == Taken(o, t) && o in mem && t in mem
      modifies this`freed, this`trace, this`state, requestManager`activeRequests, requestManager.clients`tidRepo
      ensures Resting() && trace == old(trace) + [Release]
      ensures mem[t].handle !in requestManager.activeRequests
    {
      Goes(Release);
      ghost var u := Next(cfg, ctx, state, Release);
      Released(cfg, ctx, State(), o, t);
      requestManager.RemoveRequest(mem[t]);
      freed := freed + [o] + [t];
      trace, state := trace + [Release], u;
    }

    lemma EntriesAreKnown(h: int)
      requires Coupled()
      ensures var active := requestManager.View().active;
        h in active ==> active[h].req.obj in mem && mem[active[h].req.obj].handle == h
    {
      Reachable();
      assert h in State().rm.active ==> EntryOk(State(), h);
    }

    method ReadUntuneStatus(o: nat) returns (target: Option<nat>)
      requires Coupled() && State().consumer == Popped(o) && o in mem && mem[o].kind == Untune
      modifies this`freed, this`trace, this`state
      ensures Coupled() && State().consumer == (if target.Some? then Taking(o, target.value) else Idle)
      ensures trace == old(trace) + [ReadStatus] && (target.Some? ==> target.value in mem)
      ensures var active, h := requestManager.activeRequests, mem[o].handle;
        && (target.Some? <==> h in active && active[h].completed)
        && (target.Some? ==> target.value == active[h].req.obj && mem[target.value].handle == h)
    {
      var found := requestManager.GetRequestFromMap(mem[o].handle);
      EntriesAreKnown(mem[o].handle);
      Goes(ReadStatus);
      ghost var u := Next(cfg, ctx, state, ReadStatus);
      UntuneRead(cfg, ctx, State(), o);
      if found.None? || !found.value.completed {
        freed := freed + [o];
        target := None;
      } else {
        target := Some(found.value.req.obj);
      }
      trace, state := trace + [ReadStatus], u;
    }

    method RemoveTune(o: nat, t: nat, mode: Mode)
      requires Coupled() && Linked() && State().consumer == Taking(o, t) && o in mem && t in mem && mode in modes
      modifies this`freed, this`trace, this`state, this`table, this`tabled, requestManager`activeRequests
      modifies requestManager.clients`tidRepo
      modifies linked`ledger, linked.Repr
      ensures Valid() && trace == old(trace) + [TakeFromTable(mode), Release]
      ensures t in old(tabled) && tabled == Without(old(tabled), t) && mem[t].handle !in requestManager.activeRequests
    {
      TakeTune(o, t, mode);
      ReleaseTune(o, t);
    }

    // An untune acts only on a tune that has been completed: that one leaves the
    // table and is forgotten.
    method ProcessUntune(o: nat, mode: Mode)
      requires Coupled() && Linked() && State().consumer == Popped(o) && o in mem && mem[o].kind == Untune
           && mode in modes
      modifies this`freed, this`trace, this`state, this`table, this`tabled, requestManager`activeRequests
      modifies requestManager.clients`tidRepo
      modifies linked`ledger, linked.Repr
      ensures Valid()
      ensures var active, h := old(requestManager.activeRequests), mem[o].handle;
        if h in active && active[h].completed then
          && trace == old(trace) + [ReadStatus, TakeFromTable(mode), Release]
          && active[h].req.obj in old(tabled) && tabled == Without(old(tabled), active[h].req.obj)
          && h !in requestManager.activeRequests
        else
          && trace == old(trace) + [ReadStatus] && tabled == old(tabled)
          && requestManager.activeRequests == active
    {
      var target := ReadUntuneStatus(o);
      if target.Some? {
        RemoveTune(o, target.value, mode);
      }
    }

    method ProcessRetune(o: nat)
      requires Coupled() && State().consumer == Popped(o) && o in mem && mem[o].kind == Retune
      modifies this`freed, this`trace, this`state
      ensures Resting() && trace == old(trace) + [ReadStatus]
    {
      Goes(ReadStatus);
      ghost var u := Next(cfg, ctx, state, ReadStatus);
      RetuneRead(cfg, ctx, State(), o);
      freed := freed + [o];
      trace, state := trace + [ReadStatus], u;
    }

    method ProcessRequest(o: nat, mode: Mode)
      requires Coupled() && Linked() && State().consumer == Popped(o) && o in mem && mode in modes
      modifies this`freed, this`trace, this`state, this`table, this`tabled, requestManager`activeRequests
      modifies requestManager.clients`tidRepo
      modifies linked`ledger, linked.Repr
      ensures Valid() && OnlyConsumed(old(trace), trace)
    {
      ghost var before := trace;
      match mem[o].kind {
        case Tune => ProcessTune(o, mode);
        case Untune => ProcessUntune(o, mode);
        case Retune => ProcessRetune(o);
      }
      OfOneRequest(before, trace, mode);
    }

    // A clean-up message has been taken from the queue.
    ghost predicate StoppedAt(o: nat, before: multiset<nat>, now: multiset<nat>)
      reads this
    {
      now[o] < before[o] && o in mem && mem[o].prio == SERVER_CLEANUP_TRIGGER_PRIORITY
    }

    method ProcessNext(mode: Mode) returns (cleanUp: bool)
      requires Valid() && HasPendingTasks() && mode in modes
      modifies this`orderedQueue, this`elementCount, this`freed, this`trace, this`state, this`table, this`tabled
      modifies requestManager`activeRequests, requestManager.clients`tidRepo
      modifies linked`ledger, linked.Repr
      ensures Valid() && OnlyConsumed(old(trace), trace)
      ensures orderedQueue <= old(orderedQueue) && elementCount < old(elementCount)
      ensures cleanUp ==> exists o :: StoppedAt(o, old(orderedQueue), orderedQueue)
    {
      var o := PopMessage();
      if mem[o].prio == SERVER_CLEANUP_TRIGGER_PRIORITY {
        assert StoppedAt(o, old(orderedQueue), orderedQueue);
        return true;
      }
      ghost var popped := trace;
      ProcessRequest(o, mode);
      GoesOn(old(trace), popped, trace);
      return false;
    }

    // Processes all that is queued, or all up to a clean-up message, by steps of
    // the consumer.
    method OrderedQueueConsumerHook(mode: Mode) returns (cleanUp: bool)
      requires Valid() && mode in modes
      modifies this`orderedQueue, this`elementCount, this`freed, this`trace, this`state, this`table, this`tabled
      modifies requestManager`activeRequests, requestManager.clients`tidRepo
      modifies linked`ledger, linked.Repr
      ensures Valid() && OnlyConsumed(old(trace), trace)
      ensures orderedQueue <= old(orderedQueue)
      ensures !cleanUp ==> orderedQueue == multiset{}
      ensures cleanUp ==> exists o :: StoppedAt(o, old(orderedQueue), orderedQueue)
    {
      cleanUp := false;
      while HasPendingTasks() && !cleanUp
        invariant Valid() && OnlyConsumed(old(trace), trace)
        invariant orderedQueue <= old(orderedQueue)
        invariant cleanUp ==> exists o :: StoppedAt(o, old(orderedQueue), orderedQueue)
        decreases elementCount
      {
        ghost var before := trace;
        ghost var queued := orderedQueue;
        cleanUp := ProcessNext(mode);
        if cleanUp {
          ghost var o :| StoppedAt(o, queued, orderedQueue);
          assert StoppedAt(o, old(orderedQueue), orderedQueue);
        }
        GoesOn(old(trace), before, trace);
      }
    }
  }

  // With the queue drained and no producer at work, the active requests are the
  // ones in the table, and no consumed untune was in vain.
  lemma DrainedIsApplied(q: RequestQueue, h: int)
    requires q.Valid() && q.orderedQueue == multiset{} && q.State().flights == map[]
    ensures h in q.requestManager.activeRequests
         <==> exists t :: t in q.State().tabled && t in q.mem && q.mem[t].handle == h
    ensures h in q.State().untuneDone ==> h !in q.requestManager.activeRequests
  {
    assert q.Leads(q.trace, q.state);
    Quiescent(q.cfg, q.ctx, q.trace, h);
    assert h in q.requestManager.View().active <==> h in q.requestManager.activeRequests;
  }

  // Between two messages a tune is in the table exactly if it has been consumed,
  // was not cancelled in time, is wanted by the table, and no untune of its
  // handle has been consumed.
  lemma TabledIff(q: RequestQueue, o: nat)
    requires q.Valid() && o in q.mem && q.mem[o].kind == Tune
    ensures var s, h := q.State(), q.mem[o].handle;
      o in s.tabled <==> && h in s.tuneDone && h !in s.precancelled && h !in s.untuned
                         && exists x :: x in q.mem[o].items && Target(q.ctx, x.res, q.mem[o].prio).Some?
  {
    assert q.Leads(q.trace, q.state);
    LifecycleFates.AppliedIff(q.cfg, q.ctx, q.trace, o);
  }

  // The later trace goes on from the earlier one with steps of the consumer only.
  ghost predicate OnlyConsumed(before: seq<Step>, now: seq<Step>) {
    |before| <= |now| && now[..|before|] == before && forall i :: |before| <= i < |now| ==> ByConsumer(now[i])
  }

  predicate ByConsumer(e: Step) {
    e.Pop? || OnTable(e) || (!ByProducer(e) && !OnArrival(e))
  }

  // Cancelled or completed.
  predicate Spent(active: map<int, Entry>, h: int) {
    h in active && (active[h].cancelled || active[h].completed)
  }

  lemma OfOneRequest(before: seq<Step>, now: seq<Step>, mode: Mode)
    requires || now == before + [ReadStatus, Drop]
             || now == before + [ReadStatus, MarkComplete, InsertIntoTable(mode)]
             || now == before + [ReadStatus, MarkComplete, InsertIntoTable(mode), Drop]
             || now == before + [ReadStatus]
             || now == before + [ReadStatus, TakeFromTable(mode), Release]
    ensures OnlyConsumed(before, now)
  {
  }

  lemma GoesOn(a: seq<Step>, b: seq<Step>, c: seq<Step>)
    requires OnlyConsumed(a, b) && OnlyConsumed(b, c)
    ensures OnlyConsumed(a, c)
  {
    assert c[..|a|] == c[..|b|][..|a|];
    forall i | |a| <= i < |c| ensures ByConsumer(c[i]) {
      assert i < |b| ==> c[i] == c[..|b|][i] == b[i];
    }
  }
}
