// What a producer thread does with an incoming request, from the rate limits to
// the queue, shown to be a run of producer steps of the request lifecycle.

module RequestHandlers {
  import opened Types
  import opened CocoSpec
  import opened LruCaches
  import opened ClientData
  import opened RateLimiters
  import opened RequestManagers
  import opened Lifecycle
  import opened LifecycleRuns
  import opened RequestQueues
  import opened Admission

  // What a step of a producer has done.
  ghost predicate Produces(s: Sys, u: Sys, rm: Rm, mem: map<nat, Req>, queue: multiset<nat>, frees: seq<nat>) {
    && u.rm == rm && u.mem == mem && u.queue == queue && u.frees == frees
    && u.table == s.table && u.consumer == s.consumer
  }

  ghost predicate Carries(s: Sys, o: nat, stage: Stage) {
    o in s.flights && s.flights[o] == stage && o in s.mem
  }

  lemma ThreadCreated(cfg: Config, ctx: Ctx, s: Sys, pid: int, tid: int)
    requires Sound(ctx, s)
    ensures var u := Next(cfg, ctx, s, NewThread(pid, tid));
      && (tid !in s.ownerOf && tid !in s.rm.handles ==>
            Produces(s, u, s.rm.(handles := s.rm.handles[tid := {}]), s.mem, s.queue, s.frees)
              && u.ownerOf == s.ownerOf[tid := pid])
      && u.issued == s.issued && u.nextItem == s.nextItem
  {
  }

  lemma TuneVerified(cfg: Config, ctx: Ctx, s: Sys, r: Req, items: nat)
    requires Sound(ctx, s) && CanTune(cfg, s, r, items)
    ensures var u := Next(cfg, ctx, s, NewTune(r, items));
      Produces(s, u, s.rm, s.mem[r.obj := r], s.queue, s.frees) && Carries(u, r.obj, Verified)
  {
  }

  lemma TuneRegistered(cfg: Config, ctx: Ctx, s: Sys, o: nat)
    requires Sound(ctx, s) && Carries(s, o, Verified)
    ensures var u, a := Next(cfg, ctx, s, Register(o)), CheckAndAdd(cfg, s.rm, s.mem[o]);
      && Produces(s, u, a.rm, s.mem, s.queue, if a.ok then s.frees else s.frees + [o])
      && (a.ok ==> Carries(u, o, Registered))
  {
  }

  lemma HandleArrived(cfg: Config, ctx: Ctx, s: Sys, r: Req)
    requires Sound(ctx, s) && r.obj !in s.mem && r.items == []
    ensures r.kind == Untune ==>
              var u := Next(cfg, ctx, s, NewUntune(r));
              Produces(s, u, s.rm, s.mem[r.obj := r], s.queue, s.frees) && Carries(u, r.obj, Arrived)
    ensures r.kind == Retune ==>
              var u := Next(cfg, ctx, s, NewRetune(r));
              Produces(s, u, s.rm, s.mem[r.obj := r], s.queue, s.frees) && Carries(u, r.obj, Received)
  {
  }

  lemma HandleDisabled(cfg: Config, ctx: Ctx, s: Sys, o: nat)
    requires Sound(ctx, s) && Carries(s, o, Arrived)
    ensures Popping(s.rm.cache) ==> s.rm.cache.queue != []
    ensures var u, a := Next(cfg, ctx, s, DisableHandle(o)), Disable(s.rm, s.mem[o].handle);
      && Produces(s, u, a.rm, s.mem, s.queue, if a.ok then s.frees else s.frees + [o])
      && (a.ok ==> Carries(u, o, Disabled))
  {
    SoundCanPop(ctx, s, 0);
  }

  lemma TurnedAway(cfg: Config, ctx: Ctx, s: Sys, o: nat, stage: Stage)
    requires Sound(ctx, s) && Carries(s, o, stage) && Rejectable(stage)
    ensures Produces(s, Next(cfg, ctx, s, Reject(o)), s.rm, s.mem, s.queue, s.frees + [o])
  {
  }

  lemma HandleChecked(cfg: Config, ctx: Ctx, s: Sys, o: nat, stage: Stage)
    requires Sound(ctx, s) && Carries(s, o, stage) && Checkable(stage)
    ensures var u, active := Next(cfg, ctx, s, CheckHandle(o)), s.mem[o].handle in s.rm.active;
      && Produces(s, u, s.rm, s.mem, s.queue, if active then s.frees else s.frees + [o])
      && (active ==> Carries(u, o, Stage.Checked))
  {
  }

  // The later trace goes on from the earlier one with steps of producers only.
  ghost predicate OnlyProduced(before: seq<Step>, now: seq<Step>) {
    && |before| <= |now| && now[..|before|] == before
    && forall i :: |before| <= i < |now| ==> ByProducer(now[i]) || OnArrival(now[i])
  }

  // ---- One step each ----

  lemma NotYetKnown(q: RequestQueue, tid: int)
    requires q.Coupled() && tid !in q.requestManager.clients.tidRepo
    ensures tid !in q.State().ownerOf && tid !in q.State().rm.handles
  {
    q.Reachable();
    assert tid !in q.requestManager.View().handles;
  }

  method CreateThread(q: RequestQueue, pid: int, tid: int) returns (ok: bool)
    requires q.Coupled() && tid !in q.requestManager.clients.tidRepo
    modifies q`trace, q`state, q.requestManager.clients`tidRepo, q.requestManager.clients`clientRepo
    ensures q.Coupled() && q.trace == old(q.trace) + [NewThread(pid, tid)]
    ensures ok <==> old(q.requestManager.clients.HasRoom(pid, tid))
    ensures pid in q.requestManager.clients.clientRepo
    ensures q.requestManager.clients.tidRepo == old(q.requestManager.clients.tidRepo)[tid := NEW_CLIENT]
    ensures q.State().ownerOf == old(q.State()).ownerOf[tid := pid]
    ensures q.State().issued == old(q.State()).issued && q.State().nextItem == old(q.State()).nextItem
  {
    NotYetKnown(q, tid);
    q.Goes(NewThread(pid, tid));
    ghost var u := Next(q.cfg, q.ctx, q.State(), NewThread(pid, tid));
    ThreadCreated(q.cfg, q.ctx, q.State(), pid, tid);
    ok := q.requestManager.clients.CreateNewClient(pid, tid, LevelOf(q.cfg, pid));
    assert q.requestManager.clients.HandlesOf() == old(q.requestManager.clients.HandlesOf())[tid := {}];
    q.trace, q.state := q.trace + [NewThread(pid, tid)], u;
  }

  // A new tune has an address and entries of its own.
  lemma NewToTable(q: RequestQueue, r: Req, items: nat)
    requires q.Coupled() && q.Linked() && CanTune(q.cfg, q.State(), r, items)
    ensures r.obj !in q.linked.requests && Level(r.prio)
    ensures forall p :: p in q.linked.ledger.tunes ==> forall x :: x in r.items ==> x !in q.linked.ledger.tunes[p].items
  {
    q.Reachable();
    q.linked.Sound();
    assert TuneKnown(q.mem, q.linked.ledger.tunes, r.obj);
    forall p, x | p in q.linked.ledger.tunes && x in r.items ensures x !in q.linked.ledger.tunes[p].items {
      assert TuneKnown(q.mem, q.linked.ledger.tunes, p);
      assert ItemsOk(q.mem[p], q.State().nextItem);
    }
  }

  lemma OneMoreKnown(mem: map<nat, Req>, tunes: map<nat, Coordinator.TuneReq>, r: Req)
    requires TunesKnown(mem, tunes) && r.obj !in mem
    ensures TunesKnown(mem[r.obj := r], if r.kind == Tune then tunes[r.obj := AsTune(r)] else tunes)
  {
    var more, known := mem[r.obj := r], if r.kind == Tune then tunes[r.obj := AsTune(r)] else tunes;
    forall o ensures TuneKnown(more, known, o) {
      assert TuneKnown(mem, tunes, o);
    }
  }

  method CarryTune(q: RequestQueue, r: Req, items: nat)
    requires q.Coupled() && q.Linked() && CanTune(q.cfg, q.State(), r, items)
    modifies q`mem, q`trace, q`state, q.linked
    ensures q.Coupled() && q.Linked() && q.trace == old(q.trace) + [NewTune(r, items)]
    ensures q.mem == old(q.mem)[r.obj := r] && Carries(q.State(), r.obj, Verified)
    ensures fresh(q.linked.Repr - old(q.linked.Repr))
  {
    NewToTable(q, r, items);
    OneMoreKnown(q.mem, q.linked.ledger.tunes, r);
    q.Goes(NewTune(r, items));
    ghost var u := Next(q.cfg, q.ctx, q.State(), NewTune(r, items));
    TuneVerified(q.cfg, q.ctx, q.State(), r, items);
    q.linked.AddRequest(r.obj, r.items, r.prio);
    q.Bring(NewTune(r, items), u, r);
  }

  method RegisterTune(q: RequestQueue, o: nat) returns (ok: bool)
    requires q.Coupled() && q.Linked() && Carries(q.State(), o, Verified)
         && q.mem[o].pid in q.requestManager.clients.clientRepo
    modifies q`freed, q`trace, q`state
    modifies q.requestManager`activeRequests, q.requestManager`totalRequestServed, q.requestManager.clients`tidRepo
    ensures q.Coupled() && q.Linked() && q.trace == old(q.trace) + [Register(o)]
    ensures ok ==> Carries(q.State(), o, Registered)
    ensures ok == CheckAndAdd(q.cfg, old(q.requestManager.View()), q.mem[o]).ok
  {
    q.Goes(Register(o));
    ghost var u := Next(q.cfg, q.ctx, q.State(), Register(o));
    TuneRegistered(q.cfg, q.ctx, q.State(), o);
    OwnLevelDecides(q.cfg, q.requestManager.Known(), q.requestManager.View(), q.mem[o]);
    ok := q.requestManager.AddToRequestManager(q.mem[o]);
    q.Conclude(Register(o), u, o, !ok);
  }

  method CarryHandle(q: RequestQueue, r: Req)
    requires q.Coupled() && q.Linked() && r.obj !in q.mem && r.items == [] && r.kind != Tune
    modifies q`mem, q`trace, q`state
    ensures q.Coupled() && q.Linked()
         && q.trace == old(q.trace) + [if r.kind == Untune then NewUntune(r) else NewRetune(r)]
    ensures q.mem == old(q.mem)[r.obj := r] && Carries(q.State(), r.obj, if r.kind == Untune then Arrived else Received)
  {
    ghost var e := if r.kind == Untune then NewUntune(r) else NewRetune(r);
    q.Goes(e);
    ghost var u := Next(q.cfg, q.ctx, q.State(), e);
    HandleArrived(q.cfg, q.ctx, q.State(), r);
    OneMoreKnown(q.mem, q.linked.ledger.tunes, r);
    q.Bring(e, u, r);
  }

  method CancelTune(q: RequestQueue, o: nat) returns (ok: bool)
    requires q.Coupled() && q.Linked() && Carries(q.State(), o, Arrived)
    modifies q`freed, q`trace, q`state, q.requestManager`activeRequests, q.requestManager.untuneCache
    ensures q.Coupled() && q.Linked() && q.trace == old(q.trace) + [DisableHandle(o)]
    ensures ok ==> Carries(q.State(), o, Disabled)
    ensures Cancels(old(q.requestManager.activeRequests), q.requestManager.activeRequests, q.mem[o].handle, ok)
  {
    q.Goes(DisableHandle(o));
    ghost var u := Next(q.cfg, q.ctx, q.State(), DisableHandle(o));
    HandleDisabled(q.cfg, q.ctx, q.State(), o);
    ok := q.requestManager.DisableRequestProcessing(q.mem[o].handle);
    q.Conclude(DisableHandle(o), u, o, !ok);
  }

  method TurnAway(q: RequestQueue, o: nat, ghost stage: Stage)
    requires q.Coupled() && q.Linked() && Carries(q.State(), o, stage) && Rejectable(stage)
    modifies q`freed, q`trace, q`state
    ensures q.Coupled() && q.Linked() && q.trace == old(q.trace) + [Reject(o)]
  {
    q.Goes(Reject(o));
    ghost var u := Next(q.cfg, q.ctx, q.State(), Reject(o));
    TurnedAway(q.cfg, q.ctx, q.State(), o, stage);
    q.Conclude(Reject(o), u, o, true);
  }

  method CheckActive(q: RequestQueue, o: nat, ghost stage: Stage) returns (ok: bool)
    requires q.Coupled() && q.Linked() && Carries(q.State(), o, stage) && Checkable(stage)
    modifies q`freed, q`trace, q`state
    ensures q.Coupled() && q.Linked() && q.trace == old(q.trace) + [CheckHandle(o)]
    ensures ok ==> Carries(q.State(), o, Stage.Checked)
    ensures ok <==> q.mem[o].handle in q.requestManager.View().active
  {
    q.Goes(CheckHandle(o));
    ghost var u := Next(q.cfg, q.ctx, q.State(), CheckHandle(o));
    HandleChecked(q.cfg, q.ctx, q.State(), o, stage);
    ok := q.requestManager.VerifyHandle(q.mem[o].handle);
    q.Conclude(CheckHandle(o), u, o, !ok);
  }

  // ---- Whole requests ----

  // The items of a request, at addresses of their own.
  function NewItems(resources: seq<Resource>, base: nat): (r: seq<Item>)
    ensures |r| == |resources| && NoDup(r)
    ensures forall x :: x in r ==> base <= x.id < base + |resources|
  {
    seq(|resources|, i requires 0 <= i < |resources| => Item(base + i, resources[i]))
  }

  lemma ProducedMore(a: seq<Step>, b: seq<Step>, c: seq<Step>)
    requires OnlyProduced(a, b) && OnlyProduced(b, c)
    ensures OnlyProduced(a, c)
  {
    assert c[..|a|] == c[..|b|][..|a|];
    forall i | |a| <= i < |c| ensures ByProducer(c[i]) || OnArrival(c[i]) {
      assert i < |b| ==> c[i] == c[..|b|][i] == b[i];
    }
  }

  lemma ProducedOne(a: seq<Step>, b: seq<Step>, e: Step)
    requires OnlyProduced(a, b) && (ByProducer(e) || OnArrival(e))
    ensures OnlyProduced(a, b + [e])
  {
    assert (b + [e])[..|a|] == b[..|a|];
  }

  // With an entry for the thread, should it have had none.
  function WithClient(repo: map<int, TidData>, tid: int): map<int, TidData> {
    if tid in repo then repo else repo[tid := NEW_CLIENT]
  }

  function WithThread(rm: Rm, tid: int): Rm {
    if tid in rm.handles then rm else rm.(handles := rm.handles[tid := {}])
  }

  // A thread that is known belongs to one process, which is known as well.
  ghost predicate OfProcess(q: RequestQueue, pid: int, tid: int)
    reads q, q.requestManager, q.requestManager.clients
  {
    tid in q.State().ownerOf ==> q.State().ownerOf[tid] == pid && pid in q.requestManager.clients.clientRepo
  }

  // A thread with a new request has an entry, or gets one, as long as the cap
  // on active requests is not reached and its process has room for it.
  method MeetClient(q: RequestQueue, pid: int, tid: int) returns (ok: bool)
    requires q.Coupled() && OfProcess(q, pid, tid)
    modifies q`trace, q`state, q.requestManager.clients`tidRepo, q.requestManager.clients`clientRepo
    ensures q.Coupled() && OnlyProduced(old(q.trace), q.trace)
    ensures ok <==>
              && |old(q.requestManager.activeRequests)| < q.cfg.maxActive
              && old(q.requestManager.clients.HasRoom(pid, tid))
    ensures ok ==> KnownClient(q.State(), pid, tid) && pid in q.requestManager.clients.clientRepo
    ensures ok ==> q.requestManager.clients.tidRepo == WithClient(old(q.requestManager.clients.tidRepo), tid)
    ensures ok ==> q.requestManager.View() == WithThread(old(q.requestManager.View()), tid)
    ensures q.State().issued == old(q.State()).issued && q.State().nextItem == old(q.State()).nextItem
  {
    if |q.requestManager.activeRequests| >= q.cfg.maxActive {
      return false;
    }
    EntryHasOwner(q, tid);
    if q.requestManager.clients.ClientExists(pid, tid) {
      return true;
    }
    ok := CreateThread(q, pid, tid);
    assert q.requestManager.clients.HandlesOf() == old(q.requestManager.clients.HandlesOf())[tid := {}];
  }

  lemma EntryHasOwner(q: RequestQueue, tid: int)
    requires q.Coupled()
    ensures tid in q.requestManager.clients.tidRepo <==> tid in q.State().rm.handles
    ensures tid in q.State().rm.handles ==> tid in q.State().ownerOf
  {
    q.Reachable();
    assert tid in q.requestManager.clients.tidRepo <==> tid in q.requestManager.View().handles;
  }

  ghost predicate KnownClient(s: Sys, pid: int, tid: int) {
    tid in s.rm.handles && tid in s.ownerOf && s.ownerOf[tid] == pid
  }

  predicate Honored(limits: Limits, repo: map<int, TidData>, tid: int, now: int) {
    tid in repo && Judge(limits, repo[tid], now).accepted
  }

  // The per-client rate limit touches nothing the lifecycle knows of.
  method HonorsRateLimit(q: RequestQueue, limiter: RateLimiter, tid: int, now: int) returns (ok: bool)
    requires q.Coupled() && limiter.clients == q.requestManager.clients
    modifies q.requestManager.clients`tidRepo
    ensures q.Coupled() && q.requestManager.View() == old(q.requestManager.View())
    ensures ok <==> Honored(limiter.limits, old(q.requestManager.clients.tidRepo), tid, now)
  {
    ok := limiter.ShouldBeProcessed(tid, now);
  }

  // Registers a carried tune and queues it.
  method RegisterAndQueue(q: RequestQueue, o: nat) returns (queued: bool)
    requires q.Coupled() && q.Linked() && Carries(q.State(), o, Verified)
         && q.mem[o].pid in q.requestManager.clients.clientRepo
    requires q.mem[o].prio >= SERVER_CLEANUP_TRIGGER_PRIORITY
    modifies q`freed, q`trace, q`state, q`orderedQueue, q`elementCount
    modifies q.requestManager`activeRequests, q.requestManager`totalRequestServed, q.requestManager.clients`tidRepo
    ensures q.Coupled() && q.Linked() && OnlyProduced(old(q.trace), q.trace)
    ensures queued == CheckAndAdd(q.cfg, old(q.requestManager.View()), q.mem[o]).ok
    ensures q.orderedQueue == old(q.orderedQueue) + if queued then multiset{o} else multiset{}
  {
    queued := RegisterTune(q, o);
    if queued {
      var added := q.AddAndWakeup(o);
    }
  }

  // A tune that passed verification, or is trusted.
  method SubmitVerified(q: RequestQueue, r: Req) returns (queued: bool)
    requires q.Coupled() && q.Linked() && CanTune(q.cfg, q.State(), r, |r.items|)
    requires r.pid in q.requestManager.clients.clientRepo
    modifies q`mem, q`freed, q`trace, q`state, q`orderedQueue, q`elementCount, q.linked
    modifies q.requestManager`activeRequests, q.requestManager`totalRequestServed, q.requestManager.clients`tidRepo
    ensures q.Coupled() && q.Linked() && OnlyProduced(old(q.trace), q.trace)
    ensures queued == CheckAndAdd(q.cfg, old(q.requestManager.View()), r).ok
    ensures q.orderedQueue == old(q.orderedQueue) + if queued then multiset{r.obj} else multiset{}
    ensures q.mem == old(q.mem)[r.obj := r]
  {
    ghost var before := q.trace;
    CarryTune(q, r, |r.items|);
    ProducedOne(before, before, NewTune(r, |r.items|));
    ghost var carried := q.trace;
    queued := RegisterAndQueue(q, r.obj);
    ProducedMore(before, carried, q.trace);
  }

  // Below the cap on active requests, of a process with room for the thread,
  // and within the client's rate limit unless the request is trusted.
  predicate InLimits(q: RequestQueue, limiter: RateLimiter, pid: int, tid: int, now: int, trusted: bool)
    reads q.requestManager`activeRequests, q.requestManager.clients
  {
    && |q.requestManager.activeRequests| < q.cfg.maxActive && q.requestManager.clients.HasRoom(pid, tid)
    && (trusted || Honored(limiter.limits, WithClient(q.requestManager.clients.tidRepo, tid), tid, now))
  }

  // The global limit, the client's entry, and its rate limit.
  method MeetClientInLimits(q: RequestQueue, limiter: RateLimiter, pid: int, tid: int, now: int, trusted: bool)
    returns (ok: bool)
    requires q.Coupled() && limiter.clients == q.requestManager.clients && OfProcess(q, pid, tid)
    modifies q`trace, q`state, q.requestManager.clients`tidRepo, q.requestManager.clients`clientRepo
    ensures q.Coupled() && OnlyProduced(old(q.trace), q.trace)
    ensures q.State().issued == old(q.State()).issued && q.State().nextItem == old(q.State()).nextItem
    ensures ok <==> old(InLimits(q, limiter, pid, tid, now, trusted))
    ensures ok ==> pid in q.requestManager.clients.clientRepo
    ensures ok ==> KnownClient(q.State(), pid, tid)
    ensures ok ==> q.requestManager.View() == WithThread(old(q.requestManager.View()), tid)
  {
    ok := MeetClient(q, pid, tid);
    if ok && !trusted {
      ok := HonorsRateLimit(q, limiter, tid, now);
    }
  }

  ghost predicate Passes(cfg: Config, env: Env, req: IncomingRequest)
    requires env.platform.Valid()
    reads req
  {
    Acceptable(cfg, env, req.pid, req.duration, req.properties, req.resources)
  }

  function ResourcesOf(items: seq<Item>): seq<Resource> {
    seq(|items|, i requires 0 <= i < |items| => items[i].res)
  }

  // Verification, and what it gives.
  method Verifies(cfg: Config, env: Env, req: IncomingRequest) returns (ok: bool)
    requires env.platform.Valid()
    modifies req
    ensures ok == old(Passes(cfg, env, req))
    ensures ok ==>
      req.pid in cfg.level && IsGranted(cfg.level[req.pid], PriorityOf(req.properties), PriorityOf(old(req.properties)))
    ensures ok ==> AllChecked(env, cfg.level[req.pid], req.resources, old(req.resources))
  {
    ok := VerifyIncomingRequest(cfg, env, req);
  }

  // The level asked for if the client may have it, otherwise the corresponding
  // one of its own.
  predicate IsGranted(permission: Permission, prio: int, asked: int) {
    LevelAllows(permission, prio) && prio == if LevelAllows(permission, asked) then asked else asked + 2
  }

  // What a producer finds in a request that may go on: what was asked for if it
  // is trusted, otherwise the level granted to its client and checked resources.
  ghost predicate Admissible(cfg: Config, env: Env, pid: int, prio: int, resources: seq<Resource>,
                             askedPrio: int, asked: seq<Resource>, trusted: bool)
    requires env.platform.Valid()
  {
    if trusted then prio == askedPrio && resources == asked
    else
      && pid in cfg.level && IsGranted(cfg.level[pid], prio, askedPrio)
      && AllChecked(env, cfg.level[pid], resources, asked)
  }

  // The same, and verification unless the request is trusted.
  method MeetAndVerify(q: RequestQueue, limiter: RateLimiter, env: Env, req: IncomingRequest, tid: int, now: int,
                       trusted: bool) returns (ok: bool)
    requires q.Coupled() && limiter.clients == q.requestManager.clients && env.platform.Valid()
    requires OfProcess(q, req.pid, tid)
    modifies q`trace, q`state, req, q.requestManager.clients`tidRepo, q.requestManager.clients`clientRepo
    ensures q.Coupled() && OnlyProduced(old(q.trace), q.trace)
    ensures q.State().issued == old(q.State()).issued && q.State().nextItem == old(q.State()).nextItem
    ensures ok <==>
              && old(InLimits(q, limiter, req.pid, tid, now, trusted))
              && (trusted || old(Passes(q.cfg, env, req)))
    ensures ok ==> req.pid in q.requestManager.clients.clientRepo
    ensures ok ==> KnownClient(q.State(), req.pid, tid)
    ensures ok ==> q.requestManager.View() == WithThread(old(q.requestManager.View()), tid)
    ensures ok ==> Admissible(q.cfg, env, req.pid, PriorityOf(req.properties), req.resources,
                              PriorityOf(old(req.properties)), old(req.resources), trusted)
  {
    ok := MeetClientInLimits(q, limiter, req.pid, tid, now, trusted);
    if ok && !trusted {
      ok := Verifies(q.cfg, env, req);
    }
  }

  // The object of a tune that may go on, as other threads see it.
  ghost predicate IsTuneFor(cfg: Config, env: Env, r: Req, handle: int, pid: int, tid: int, source: int,
                            askedPrio: int, asked: seq<Resource>, trusted: bool)
    requires env.platform.Valid()
  {
    && r.kind == Tune && r.handle == handle && r.pid == pid && r.tid == tid && r.source == source
    && Admissible(cfg, env, pid, r.prio, ResourcesOf(r.items), askedPrio, asked, trusted)
  }

  // A tune: the checks, registration, and the queue. It becomes an object of
  // the lifecycle if and only if it passes the limits and verification, or the
  // limits that a trusted one has to pass, and is queued if and only if it is
  // then admitted. Trusted tunes come from the server itself, with one of the
  // four levels.
  method SubmitTune(q: RequestQueue, limiter: RateLimiter, env: Env, req: IncomingRequest, o: nat, handle: int,
                    tid: int, source: int, base: nat, now: int, trusted: bool) returns (queued: bool)
    requires q.Coupled() && q.Linked() && limiter.clients == q.requestManager.clients && env.platform.Valid()
    requires req !in q.linked.Repr && OfProcess(q, req.pid, tid) && o !in q.mem && handle !in q.State().issued
         && base == q.State().nextItem
    requires trusted ==> Level(PriorityOf(req.properties))
    modifies q`mem, q`freed, q`trace, q`state, q`orderedQueue, q`elementCount, q.linked, req
    modifies q.requestManager`activeRequests, q.requestManager`totalRequestServed, q.requestManager.clients
    ensures q.Coupled() && q.Linked() && OnlyProduced(old(q.trace), q.trace)
    ensures q.orderedQueue == old(q.orderedQueue) + if queued then multiset{o} else multiset{}
    ensures o in q.mem <==>
              && old(InLimits(q, limiter, req.pid, tid, now, trusted))
              && (trusted || old(Passes(q.cfg, env, req)))
    ensures o in q.mem ==>
      && q.mem == old(q.mem)[o := q.mem[o]]
      && IsTuneFor(q.cfg, env, q.mem[o], handle, req.pid, tid, source,
                   PriorityOf(old(req.properties)), old(req.resources), trusted)
    ensures o !in q.mem ==> q.mem == old(q.mem)
    ensures queued <==> o in q.mem && CheckAndAdd(q.cfg, WithThread(old(q.requestManager.View()), tid), q.mem[o]).ok
  {
    var ok := MeetAndVerify(q, limiter, env, req, tid, now, trusted);
    if !ok {
      return false;
    }
    ghost var met := q.trace;
    var r := Req(o, Tune, handle, PriorityOf(req.properties), req.pid, tid, source, NewItems(req.resources, base));
    assert ResourcesOf(r.items) == req.resources;
    queued := SubmitVerified(q, r);
    ProducedMore(old(q.trace), met, q.trace);
  }

  // The request is carried from now on, and an untune cancels the tune of its handle.
  method CarryAndCancel(q: RequestQueue, r: Req) returns (ok: bool)
    requires q.Coupled() && q.Linked() && r.obj !in q.mem && r.items == [] && r.kind != Tune
    modifies q`mem, q`freed, q`trace, q`state, q.requestManager`activeRequests, q.requestManager.untuneCache
    ensures q.Coupled() && q.Linked() && OnlyProduced(old(q.trace), q.trace) && q.mem == old(q.mem)[r.obj := r]
    ensures ok <==> r.kind == Untune ==> r.handle in old(q.requestManager.View()).active
    ensures ok ==> Carries(q.State(), r.obj, if r.kind == Untune then Disabled else Received)
    ensures ok && r.kind == Untune ==> IsCancelled(q.requestManager.activeRequests, r.handle)
    ensures r.handle in q.requestManager.activeRequests <==> r.handle in old(q.requestManager.activeRequests)
  {
    CarryHandle(q, r);
    ok := true;
    if r.kind == Untune {
      ghost var carried := q.trace;
      ok := CancelTune(q, r.obj);
      ProducedOne(old(q.trace), carried, DisableHandle(r.obj));
    }
  }

  // Trusted or from a known client within its rate limit, for an active handle,
  // and not below the clean-up message.
  predicate IsTaken(q: RequestQueue, limiter: RateLimiter, r: Req, validated: bool, now: int)
    reads q.requestManager`activeRequests, q.requestManager.clients
  {
    var clients := q.requestManager.clients;
    && (validated || (r.pid in clients.clientRepo && Honored(limiter.limits, clients.tidRepo, r.tid, now)))
    && r.handle in q.requestManager.activeRequests && r.prio >= SERVER_CLEANUP_TRIGGER_PRIORITY
  }

  // An untune or retune: the client must be known and within its rate limit,
  // unless the request is trusted, the handle must be active, and the queue
  // must take the message.
  method SubmitHandleRequest(q: RequestQueue, limiter: RateLimiter, r: Req, validated: bool, now: int)
    returns (queued: bool)
    requires q.Coupled() && q.Linked() && limiter.clients == q.requestManager.clients
    requires r.obj !in q.mem && r.items == [] && r.kind != Tune
    modifies q`mem, q`freed, q`trace, q`state, q`orderedQueue, q`elementCount
    modifies q.requestManager`activeRequests, q.requestManager.untuneCache, q.requestManager.clients`tidRepo
    ensures q.Coupled() && q.Linked() && OnlyProduced(old(q.trace), q.trace)
    ensures q.orderedQueue == old(q.orderedQueue) + if queued then multiset{r.obj} else multiset{}
    ensures queued <==> old(IsTaken(q, limiter, r, validated, now))
    ensures queued && r.kind == Untune ==> IsCancelled(q.requestManager.activeRequests, r.handle)
  {
    if !validated && !q.requestManager.clients.ClientExists(r.pid, r.tid) {
      return false;
    }
    var ok := CarryAndCancel(q, r);
    if !ok {
      return false;
    }
    ghost var ready := q.trace;
    queued := QueueHandleRequest(q, limiter, r, validated, now);
    ProducedMore(old(q.trace), ready, q.trace);
  }

  // Only for a handle that is active.
  method CheckAndQueue(q: RequestQueue, o: nat, ghost stage: Stage) returns (queued: bool)
    requires q.Coupled() && q.Linked() && Carries(q.State(), o, stage) && Checkable(stage)
    modifies q`freed, q`trace, q`state, q`orderedQueue, q`elementCount
    ensures q.Coupled() && q.Linked() && OnlyProduced(old(q.trace), q.trace)
    ensures q.orderedQueue == old(q.orderedQueue) + if queued then multiset{o} else multiset{}
    ensures queued <==>
              q.mem[o].handle in q.requestManager.activeRequests && q.mem[o].prio >= SERVER_CLEANUP_TRIGGER_PRIORITY
  {
    queued := CheckActive(q, o, stage);
    if queued {
      queued := q.AddAndWakeup(o);
    }
  }

  method QueueHandleRequest(q: RequestQueue, limiter: RateLimiter, r: Req, validated: bool, now: int)
    returns (queued: bool)
    requires q.Coupled() && q.Linked() && limiter.clients == q.requestManager.clients
    requires r.kind != Tune && Carries(q.State(), r.obj, if r.kind == Untune then Disabled else Received)
         && q.mem[r.obj] == r
    modifies q`freed, q`trace, q`state, q`orderedQueue, q`elementCount, q.requestManager.clients`tidRepo
    ensures q.Coupled() && q.Linked() && OnlyProduced(old(q.trace), q.trace)
    ensures q.orderedQueue == old(q.orderedQueue) + if queued then multiset{r.obj} else multiset{}
    ensures queued <==>
      && (validated || Honored(limiter.limits, old(q.requestManager.clients.tidRepo), r.tid, now))
      && r.handle in q.requestManager.activeRequests && r.prio >= SERVER_CLEANUP_TRIGGER_PRIORITY
  {
    ghost var stage := if r.kind == Untune then Disabled else Received;
    if !validated {
      var honored := HonorsRateLimit(q, limiter, r.tid, now);
      if !honored {
        TurnAway(q, r.obj, stage);
        return false;
      }
    }
    queued := CheckAndQueue(q, r.obj, stage);
  }
}
