// An untune that overtakes its tune: as long as its handle stays in the cache,
// and for good once the tune has been turned away, the tune is never active.

module EarlyUntunes {
  import opened Types
  import opened CocoSpec
  import opened LruCaches
  import opened RequestManagers
  import opened Lifecycle
  import opened LifecycleSafety
  import opened LifecycleRuns

  // Tune o of handle h has been up for registration, or was rejected before.
  ghost predicate Past(s: Sys, o: nat, h: int) {
    o in s.mem && s.mem[o].kind == Tune && s.mem[o].handle == h && !(o in s.flights && s.flights[o] == Verified)
  }

  ghost predicate Decided(s: Sys, h: int) {
    exists o :: Past(s, o, h)
  }

  // The step puts the handle of an untune into the cache, no tune being active.
  ghost predicate Remembers(s: Sys, e: Step) {
    && e.DisableHandle? && e.o in s.flights && s.flights[e.o] == Arrived && e.o in s.mem
    && s.mem[e.o].handle !in s.rm.active
  }

  ghost predicate Counts(s: Sys, e: Step, h: int) {
    Remembers(s, e) && !Decided(s, h)
  }

  // Handle h is not active, and its tune can no longer make it so: it has been
  // turned away, or would be, h being in the cache with k handles behind it.
  ghost predicate Barred(s: Sys, h: int, k: nat) {
    h !in s.rm.active && (Decided(s, h) || Cached(s.rm.cache, h, k))
  }

  ghost predicate Cached(c: Lru, h: int, k: nat) {
    exists i: nat :: QueuedBefore(c, h, i, k)
  }

  // ---- One step ----

  lemma {:induction false} PastStep(cfg: Config, ctx: Ctx, s: Sys, e: Step, o: nat, h: int)
    requires Sound(ctx, s) && Past(s, o, h)
    ensures Past(Next(cfg, ctx, s, e), o, h)
  {
    if ByProducer(e) {
      PastProducer(cfg, s, e, o, h);
    } else if OnArrival(e) {
      PastArrival(ctx, s, e, o, h);
    }
  }

  lemma {:induction false} PastProducer(cfg: Config, s: Sys, e: Step, o: nat, h: int)
    requires ByProducer(e) && Past(s, o, h)
    ensures Past(ProducerStep(cfg, s, e), o, h)
  {
  }

  lemma {:induction false} PastArrival(ctx: Ctx, s: Sys, e: Step, o: nat, h: int)
    requires OnArrival(e) && Sound(ctx, s) && Past(s, o, h)
    ensures Past(ArrivalStep(ctx, s, e), o, h)
  {
  }

  lemma {:induction false} CacheStep(cfg: Config, ctx: Ctx, s: Sys, e: Step)
    requires Sound(ctx, s)
    ensures Popping(s.rm.cache) ==> s.rm.cache.queue != []
    ensures Next(cfg, ctx, s, e).rm.cache
         == if Remembers(s, e) then InsertValue(s.rm.cache, s.mem[e.o].handle) else s.rm.cache
  {
    SoundCanPop(ctx, s, 0);
  }

  lemma {:induction false} NotByArrival(ctx: Ctx, s: Sys, e: Step, h: int)
    requires Sound(ctx, s) && OnArrival(e) && h !in s.rm.active
    ensures h !in ArrivalStep(ctx, s, e).rm.active
  {
    match e
    case DisableHandle(o) => DisableSound(ctx, s, o);
    case Reject(o) =>
    case CheckHandle(o) =>
    case Pop(o) =>
  }

  lemma {:induction false} NotByConsumer(s: Sys, e: Step, h: int)
    requires !ByProducer(e) && !OnArrival(e) && !OnTable(e) && h !in s.rm.active
    ensures h !in ConsumerStep(s, e).rm.active
  {
  }

  lemma {:induction false} ByProducerOnly(cfg: Config, s: Sys, e: Step, h: int)
    requires ByProducer(e) && h !in s.rm.active && h in ProducerStep(cfg, s, e).rm.active
    ensures e.Register? && e.o in s.flights && s.flights[e.o] == Verified && e.o in s.mem && s.mem[e.o].handle == h
    ensures h !in s.rm.cache.data
  {
    if e.Register? && e.o in s.mem {
      OnlyAdmitted(cfg, s.rm, s.mem[e.o], h);
    }
  }

  lemma OnlyAdmitted(cfg: Config, rm: Rm, req: Req, h: int)
    requires h !in rm.active && h in CheckAndAdd(cfg, rm, req).rm.active
    ensures h == req.handle && h !in rm.cache.data
  {
  }

  // Only the tune of a handle makes it active, and only if it is not cached.
  lemma {:induction false} OnlyByRegister(cfg: Config, ctx: Ctx, s: Sys, e: Step, h: int)
    requires Sound(ctx, s) && h !in s.rm.active && h in Next(cfg, ctx, s, e).rm.active
    ensures e.Register? && e.o in s.flights && s.flights[e.o] == Verified && e.o in s.mem && s.mem[e.o].handle == h
    ensures h !in s.rm.cache.data
  {
    if ByProducer(e) {
      ByProducerOnly(cfg, s, e, h);
    } else if OnArrival(e) {
      NotByArrival(ctx, s, e, h);
    } else if !OnTable(e) {
      NotByConsumer(s, e, h);
    }
  }

  lemma {:induction false} ActiveStep(cfg: Config, ctx: Ctx, s: Sys, e: Step, h: int)
    requires Core(cfg, s) && Sound(ctx, s) && h !in s.rm.active && h in Next(cfg, ctx, s, e).rm.active
    ensures !Decided(s, h) && h !in s.rm.cache.data
  {
    OnlyByRegister(cfg, ctx, s, e, h);
    if o :| Past(s, o, h) {
      NotPast(cfg, s, e.o, o, h);
    }
  }

  // A handle has one tune.
  lemma NotPast(cfg: Config, s: Sys, o: nat, p: nat, h: int)
    requires Core(cfg, s) && o in s.flights && s.flights[o] == Verified && o in s.mem && s.mem[o].handle == h
    ensures !Past(s, p, h)
  {
    if p in s.mem && p != o {
      assert Apart(s.mem[o], s.mem[p]);
    }
  }

  lemma {:induction false} BarredStep(cfg: Config, ctx: Ctx, s: Sys, e: Step, h: int, k: nat)
    requires Core(cfg, s) && Sound(ctx, s) && Barred(s, h, k)
    requires Counts(s, e, h) ==> k + 1 < s.rm.cache.maxSize
    ensures Barred(Next(cfg, ctx, s, e), h, if Counts(s, e, h) then k + 1 else k)
  {
    var u := Next(cfg, ctx, s, e);
    if h in u.rm.active {
      ActiveStep(cfg, ctx, s, e, h);
    }
    CacheStep(cfg, ctx, s, e);
    if o :| Past(s, o, h) {
      PastStep(cfg, ctx, s, e, o, h);
    } else if Remembers(s, e) {
      var i: nat :| QueuedBefore(s.rm.cache, h, i, k);
      var j := WindowStep(s.rm.cache, h, i, k, s.mem[e.o].handle);
    }
  }

  // ---- Whole runs ----

  lemma {:induction false} CacheSize(cfg: Config, ctx: Ctx, steps: seq<Step>)
    ensures Run(cfg, ctx, steps).rm.cache.maxSize == DEFAULT_CACHE_SIZE
  {
    if steps != [] {
      var init, e := steps[..|steps| - 1], steps[|steps| - 1];
      CacheSize(cfg, ctx, init);
      CacheStep(cfg, ctx, Run(cfg, ctx, init), e);
    }
  }

  // The states of a run, from the start on.
  ghost predicate IsRun(cfg: Config, ctx: Ctx, steps: seq<Step>, states: seq<Sys>) {
    && |states| == |steps| + 1
    && forall i {:trigger StateAt(cfg, ctx, steps, states, i)} :: 0 <= i <= |steps| ==>
         StateAt(cfg, ctx, steps, states, i)
  }

  ghost predicate StateAt(cfg: Config, ctx: Ctx, steps: seq<Step>, states: seq<Sys>, i: int)
    requires 0 <= i <= |steps| && |states| == |steps| + 1
  {
    states[i] == Run(cfg, ctx, steps[..i])
  }

  lemma {:induction false} StepAt(cfg: Config, ctx: Ctx, steps: seq<Step>, states: seq<Sys>, i: nat)
    requires IsRun(cfg, ctx, steps, states) && i < |steps|
    ensures Sound(ctx, states[i]) && Core(cfg, states[i]) && states[i].rm.cache.maxSize == DEFAULT_CACHE_SIZE
    ensures states[i + 1] == Next(cfg, ctx, states[i], steps[i])
  {
    assert StateAt(cfg, ctx, steps, states, i) && StateAt(cfg, ctx, steps, states, i + 1);
    RunAppend(cfg, ctx, steps[..i], steps[i]);
    assert steps[..i + 1] == steps[..i] + [steps[i]];
    RunCore(cfg, ctx, steps[..i]);
    CacheSize(cfg, ctx, steps[..i]);
  }

  // Step e puts h into the cache, where it is not queued yet.
  ghost predicate Overtakes(s: Sys, e: Step, h: int) {
    Remembers(s, e) && s.mem[e.o].handle == h && h !in s.rm.cache.queue
  }

  // How many untunes are remembered from step d on and before step n, until the
  // tune of handle h is up for registration.
  ghost function Remembered(steps: seq<Step>, states: seq<Sys>, d: nat, n: nat, h: int): nat
    requires n <= |steps| <= |states|
  {
    if n <= d then 0
    else Remembered(steps, states, d, n - 1, h) + if Counts(states[n - 1], steps[n - 1], h) then 1 else 0
  }

  lemma {:induction false} BarredAtOnce(cfg: Config, ctx: Ctx, s: Sys, e: Step, h: int)
    requires Sound(ctx, s) && Remembers(s, e) && s.mem[e.o].handle == h && h !in s.rm.cache.queue
    ensures Barred(Next(cfg, ctx, s, e), h, 0)
  {
    CacheStep(cfg, ctx, s, e);
    NotByArrival(ctx, s, e, h);
    var c := s.rm.cache;
    var j := WindowPlace(c, h, []);
    assert QueuedBefore(InsertValue(c, h), h, j, 0);
  }

  lemma {:induction false} BarredNext(cfg: Config, ctx: Ctx, steps: seq<Step>, states: seq<Sys>, i: nat, h: int, k: nat)
    requires IsRun(cfg, ctx, steps, states) && i < |steps| && Barred(states[i], h, k)
    requires Counts(states[i], steps[i], h) ==> k + 1 < DEFAULT_CACHE_SIZE
    ensures Barred(states[i + 1], h, if Counts(states[i], steps[i], h) then k + 1 else k)
  {
    StepAt(cfg, ctx, steps, states, i);
    BarredStep(cfg, ctx, states[i], steps[i], h, k);
  }

  lemma {:induction false} BarredFirst(cfg: Config, ctx: Ctx, steps: seq<Step>, states: seq<Sys>, d: nat, h: int)
    requires IsRun(cfg, ctx, steps, states) && d < |steps| && Overtakes(states[d], steps[d], h)
    ensures Barred(states[d + 1], h, 0)
  {
    StepAt(cfg, ctx, steps, states, d);
    BarredAtOnce(cfg, ctx, states[d], steps[d], h);
  }

  lemma {:induction false} StaysBarred(cfg: Config, ctx: Ctx, steps: seq<Step>, states: seq<Sys>, d: nat, n: nat,
                                       h: int)
    requires IsRun(cfg, ctx, steps, states) && d <= n <= |steps| && Barred(states[d], h, 0)
    requires Remembered(steps, states, d, n, h) < DEFAULT_CACHE_SIZE
    ensures Barred(states[n], h, Remembered(steps, states, d, n, h))
    decreases n
  {
    if d < n {
      StaysBarred(cfg, ctx, steps, states, d, n - 1, h);
      BarredNext(cfg, ctx, steps, states, n - 1, h, Remembered(steps, states, d, n - 1, h));
    }
  }

  // A tune whose untune came first is not active in any state, if fewer other
  // untunes than the cache has room for are remembered before it is up for
  // registration.
  lemma EarlyUntuneBars(cfg: Config, ctx: Ctx, steps: seq<Step>, states: seq<Sys>, d: nat, n: nat, h: int)
    requires IsRun(cfg, ctx, steps, states) && d < n <= |steps| && Overtakes(states[d], steps[d], h)
    requires Remembered(steps, states, d + 1, n, h) < DEFAULT_CACHE_SIZE
    ensures h !in states[n].rm.active
  {
    BarredFirst(cfg, ctx, steps, states, d, h);
    StaysBarred(cfg, ctx, steps, states, d + 1, n, h);
  }

  // ---- That many untunes, and the tune is admitted after all ----

  // Untunes one after another, and then a tune of a new thread.
  ghost predicate UntunesThenTune(steps: seq<Step>, us: seq<Req>, r: Req) {
    && |steps| == 2 * |us| + 3
    && (forall i {:trigger UntuneAt(steps, us, i)} :: 0 <= i < |us| ==> UntuneAt(steps, us, i))
    && steps[2 * |us|..] == [NewThread(r.pid, r.tid), NewTune(r, |r.items|), Register(r.obj)]
  }

  ghost predicate UntuneAt(steps: seq<Step>, us: seq<Req>, i: int)
    requires 0 <= i < |us| && |steps| > 2 * |us|
  {
    steps[2 * i] == NewUntune(us[i]) && steps[2 * i + 1] == DisableHandle(us[i].obj)
  }

  function HandlesOf(us: seq<Req>): (hs: seq<int>)
    ensures |hs| == |us|
  {
    seq(|us|, i requires 0 <= i < |us| => us[i].handle)
  }

  ghost predicate Untunes(us: seq<Req>) {
    && (forall i :: 0 <= i < |us| ==> us[i].kind == Untune && us[i].items == [])
    && forall i, j :: 0 <= i < j < |us| ==> us[i].obj != us[j].obj
  }

  // Nothing has happened but that these untunes came; c is the cache.
  ghost predicate OnlyUntunes(s: Sys, us: seq<Req>, c: Lru) {
    && s.flights == map[] && s.issued == {} && s.ownerOf == map[] && s.nextItem == 0
    && s.rm == Rm(map[], c, map[])
    && (forall o :: o in s.mem ==> s.mem[o].kind == Untune && Among(us, o))
  }

  // Their handles were put into the cache.
  ghost function CacheOf(us: seq<Req>): Lru {
    InsertAllValues(Lru(DEFAULT_CACHE_SIZE, {}, []), HandlesOf(us))
  }

  lemma CacheMore(us: seq<Req>, u: Req)
    ensures Contained(CacheOf(us)) && (Popping(CacheOf(us)) ==> CacheOf(us).queue != [])
    ensures CacheOf(us + [u]) == InsertValue(CacheOf(us), u.handle)
  {
    assert HandlesOf(us + [u]) == HandlesOf(us) + [u.handle];
    InsertMore(Lru(DEFAULT_CACHE_SIZE, {}, []), HandlesOf(us), u.handle);
  }

  lemma NewObject(us: seq<Req>, u: Req)
    requires Untunes(us + [u])
    ensures forall i :: 0 <= i < |us| ==> us[i].obj != u.obj
    ensures u.kind == Untune && u.items == []
  {
    var all := us + [u];
    assert all[|us|] == u;
    forall i | 0 <= i < |us| ensures us[i].obj != u.obj {
      assert all[i].obj != all[|us|].obj;
    }
  }

  ghost predicate Among(us: seq<Req>, o: nat) {
    exists i :: 0 <= i < |us| && us[i].obj == o
  }

  lemma AmongMore(us: seq<Req>, u: Req, o: nat)
    requires Among(us, o) || o == u.obj
    ensures Among(us + [u], o)
  {
    if i :| 0 <= i < |us| && us[i].obj == o {
      assert (us + [u])[i].obj == o;
    } else {
      assert (us + [u])[|us|].obj == o;
    }
  }

  // The untune arrives, and its handle goes into the cache.
  lemma {:induction false} OneRemembered(s: Sys, us: seq<Req>, u: Req, c: Lru, v: Sys, w: Sys)
    requires OnlyUntunes(s, us, c) && Untunes(us + [u]) && (Popping(c) ==> c.queue != [])
    requires v == DoArrive(s, u, Untune, Arrived) && v.rm.cache == c && w == DoDisable(v, u.obj)
    ensures Remembers(v, DisableHandle(u.obj)) && v.mem[u.obj] == u && v.rm == s.rm
    ensures OnlyUntunes(w, us + [u], InsertValue(c, u.handle))
    ensures forall h :: !Decided(v, h)
  {
    NewObject(us, u);
    forall o | o in w.mem ensures w.mem[o].kind == Untune && Among(us + [u], o) {
      AmongMore(us, u, o);
    }
  }

  // What the steps named are.
  lemma {:induction false} ArriveAt(cfg: Config, ctx: Ctx, steps: seq<Step>, states: seq<Sys>, i: nat, u: Req)
    requires IsRun(cfg, ctx, steps, states) && i < |steps| && steps[i] == NewUntune(u)
    ensures states[i + 1] == DoArrive(states[i], u, Untune, Arrived) && Contained(states[i].rm.cache)
  {
    StepAt(cfg, ctx, steps, states, i);
  }

  lemma {:induction false} DisableAt(cfg: Config, ctx: Ctx, steps: seq<Step>, states: seq<Sys>, i: nat, o: nat)
    requires IsRun(cfg, ctx, steps, states) && i < |steps| && steps[i] == DisableHandle(o)
    ensures Popping(states[i].rm.cache) ==> states[i].rm.cache.queue != []
    ensures states[i + 1] == DoDisable(states[i], o)
  {
    StepAt(cfg, ctx, steps, states, i);
    SoundCanPop(ctx, states[i], 0);
  }

  lemma {:induction false} ThreadAt(cfg: Config, ctx: Ctx, steps: seq<Step>, states: seq<Sys>, i: nat, pid: int,
                                    tid: int)
    requires IsRun(cfg, ctx, steps, states) && i < |steps| && steps[i] == NewThread(pid, tid)
    ensures states[i + 1] == DoNewThread(states[i], pid, tid)
  {
    StepAt(cfg, ctx, steps, states, i);
  }

  lemma {:induction false} TuneAt(cfg: Config, ctx: Ctx, steps: seq<Step>, states: seq<Sys>, i: nat, r: Req, n: nat)
    requires IsRun(cfg, ctx, steps, states) && i < |steps| && steps[i] == NewTune(r, n)
    ensures states[i + 1] == DoNewTune(cfg, states[i], r, n)
  {
    StepAt(cfg, ctx, steps, states, i);
  }

  lemma {:induction false} RegisterAt(cfg: Config, ctx: Ctx, steps: seq<Step>, states: seq<Sys>, i: nat, o: nat)
    requires IsRun(cfg, ctx, steps, states) && i < |steps| && steps[i] == Register(o)
    ensures states[i + 1] == DoRegister(cfg, states[i], o)
  {
    StepAt(cfg, ctx, steps, states, i);
  }

  lemma UntunesPrefix(us: seq<Req>, k: nat)
    requires Untunes(us) && k <= |us|
    ensures Untunes(us[..k])
  {
  }

  lemma {:induction false} NoneRemembered(cfg: Config, ctx: Ctx, steps: seq<Step>, states: seq<Sys>)
    requires IsRun(cfg, ctx, steps, states)
    ensures OnlyUntunes(states[0], [], CacheOf([])) && CacheOf([]).queue == []
  {
    assert StateAt(cfg, ctx, steps, states, 0) && steps[..0] == [];
    assert HandlesOf([]) == [];
  }

  lemma {:induction false} NextRemembered(cfg: Config, ctx: Ctx, steps: seq<Step>, states: seq<Sys>, us: seq<Req>,
                                          r: Req, k: nat, c: Lru, h: int)
    requires IsRun(cfg, ctx, steps, states) && UntunesThenTune(steps, us, r) && Untunes(us) && k < |us|
    requires OnlyUntunes(states[2 * k], us[..k], c) && (Popping(c) ==> c.queue != [])
    ensures OnlyUntunes(states[2 * k + 2], us[..k + 1], InsertValue(c, us[k].handle))
    ensures !Counts(states[2 * k], steps[2 * k], h) && Counts(states[2 * k + 1], steps[2 * k + 1], h)
  {
    var u := us[k];
    assert UntuneAt(steps, us, k) && us[..k + 1] == us[..k] + [u];
    UntunesPrefix(us, k + 1);
    ArriveAt(cfg, ctx, steps, states, 2 * k, u);
    DisableAt(cfg, ctx, steps, states, 2 * k + 1, u.obj);
    OneRemembered(states[2 * k], us[..k], u, c, states[2 * k + 1], states[2 * k + 2]);
  }

  // The state after k untunes.
  ghost predicate RememberedK(states: seq<Sys>, us: seq<Req>, k: nat)
    requires k <= |us| && 2 * k < |states|
  {
    OnlyUntunes(states[2 * k], us[..k], CacheOf(us[..k]))
  }

  lemma {:induction false} OneMoreRemembered(cfg: Config, ctx: Ctx, steps: seq<Step>, states: seq<Sys>, us: seq<Req>,
                                             r: Req, k: nat)
    requires IsRun(cfg, ctx, steps, states) && UntunesThenTune(steps, us, r) && Untunes(us) && k < |us|
    requires RememberedK(states, us, k)
    ensures RememberedK(states, us, k + 1)
  {
    CacheMore(us[..k], us[k]);
    assert us[..k + 1] == us[..k] + [us[k]];
    NextRemembered(cfg, ctx, steps, states, us, r, k, CacheOf(us[..k]), 0);
  }

  lemma {:induction false} KRemembered(cfg: Config, ctx: Ctx, steps: seq<Step>, states: seq<Sys>, us: seq<Req>, r: Req,
                                       k: nat)
    requires IsRun(cfg, ctx, steps, states) && UntunesThenTune(steps, us, r) && Untunes(us) && k <= |us|
    ensures RememberedK(states, us, k)
  {
    NoneRemembered(cfg, ctx, steps, states);
    assert us[..0] == [];
    for i := 0 to k
      invariant RememberedK(states, us, i)
    {
      OneMoreRemembered(cfg, ctx, steps, states, us, r, i);
    }
  }

  // All but the first of them count.
  lemma {:induction false} KCounted(cfg: Config, ctx: Ctx, steps: seq<Step>, states: seq<Sys>, us: seq<Req>, r: Req,
                                    k: nat, h: int)
    requires IsRun(cfg, ctx, steps, states) && UntunesThenTune(steps, us, r) && Untunes(us) && 0 < k <= |us|
    ensures Remembered(steps, states, 2, 2 * k, h) == k - 1
  {
    if k > 1 {
      KCounted(cfg, ctx, steps, states, us, r, k - 1, h);
      KthCounts(cfg, ctx, steps, states, us, r, k - 1, h);
      TwoMore(steps, states, 2, 2 * k - 2, h);
    }
  }

  lemma {:induction false} KthCounts(cfg: Config, ctx: Ctx, steps: seq<Step>, states: seq<Sys>, us: seq<Req>, r: Req,
                                     k: nat, h: int)
    requires IsRun(cfg, ctx, steps, states) && UntunesThenTune(steps, us, r) && Untunes(us) && k < |us|
    ensures !Counts(states[2 * k], steps[2 * k], h) && Counts(states[2 * k + 1], steps[2 * k + 1], h)
  {
    KRemembered(cfg, ctx, steps, states, us, r, k);
    CacheMore(us[..k], us[k]);
    NextRemembered(cfg, ctx, steps, states, us, r, k, CacheOf(us[..k]), h);
  }

  lemma TwoMore(steps: seq<Step>, states: seq<Sys>, d: nat, n: nat, h: int)
    requires d <= n && n + 2 <= |steps| <= |states|
    ensures Remembered(steps, states, d, n + 2, h) == Remembered(steps, states, d, n, h)
      + (if Counts(states[n], steps[n], h) then 1 else 0) + if Counts(states[n + 1], steps[n + 1], h) then 1 else 0
  {
    assert Remembered(steps, states, d, n + 1, h)
        == Remembered(steps, states, d, n, h) + if Counts(states[n], steps[n], h) then 1 else 0;
  }

  // The cache has let go of the first of so many different handles.
  lemma OldestForgotten(hs: seq<int>)
    requires NoDup(hs) && |hs| == DEFAULT_CACHE_SIZE + 1
    ensures hs[0] !in InsertAllValues(Lru(DEFAULT_CACHE_SIZE, {}, []), hs).data
  {
    SpreadOutKeepsLast(DEFAULT_CACHE_SIZE, hs);
    assert LastOf(hs, DEFAULT_CACHE_SIZE) == hs[1..];
  }

  ghost predicate IsTune(cfg: Config, us: seq<Req>, r: Req) {
    && r.kind == Tune && Sane(r) && Level(r.prio) && cfg.maxActive > 0
    && NoDup(r.items) && (forall x :: x in r.items ==> x.id < |r.items|)
    && forall i :: 0 <= i < |us| ==> us[i].obj != r.obj
  }

  lemma {:induction false} TuneEnters(cfg: Config, s: Sys, us: seq<Req>, r: Req, u: Sys, v: Sys, w: Sys)
    requires OnlyUntunes(s, us, s.rm.cache) && IsTune(cfg, us, r) && r.handle !in s.rm.cache.data
    requires u == DoNewThread(s, r.pid, r.tid) && v == DoNewTune(cfg, u, r, |r.items|)
    requires w == DoRegister(cfg, v, r.obj)
    ensures r.handle in w.rm.active
  {
    assert r.obj !in s.mem;
    assert CanTune(cfg, u, r, |r.items|);
    assert v.rm.handles == map[r.tid := {}] && CheckAndAdd(cfg, v.rm, r).ok;
  }

  lemma {:induction false} TuneAdmitted(cfg: Config, ctx: Ctx, steps: seq<Step>, states: seq<Sys>, us: seq<Req>, r: Req)
    requires IsRun(cfg, ctx, steps, states) && UntunesThenTune(steps, us, r) && IsTune(cfg, us, r)
    requires var s := states[2 * |us|]; OnlyUntunes(s, us, s.rm.cache) && r.handle !in s.rm.cache.data
    ensures r.handle in states[2 * |us| + 3].rm.active
  {
    var n := 2 * |us|;
    TuneStepsAt(cfg, ctx, steps, states, n, r);
    TuneEnters(cfg, states[n], us, r, states[n + 1], states[n + 2], states[n + 3]);
  }

  lemma {:induction false} TuneStepsAt(cfg: Config, ctx: Ctx, steps: seq<Step>, states: seq<Sys>, n: nat, r: Req)
    requires IsRun(cfg, ctx, steps, states) && |steps| == n + 3
    requires steps[n..] == [NewThread(r.pid, r.tid), NewTune(r, |r.items|), Register(r.obj)]
    ensures states[n + 1] == DoNewThread(states[n], r.pid, r.tid)
    ensures states[n + 2] == DoNewTune(cfg, states[n + 1], r, |r.items|)
    ensures states[n + 3] == DoRegister(cfg, states[n + 2], r.obj)
  {
    var three := steps[n..];
    assert steps[n] == three[0] && steps[n + 1] == three[1] && steps[n + 2] == three[2];
    ThreadAt(cfg, ctx, steps, states, n, r.pid, r.tid);
    TuneAt(cfg, ctx, steps, states, n + 1, r, |r.items|);
    RegisterAt(cfg, ctx, steps, states, n + 2, r.obj);
  }

  lemma {:induction false} FirstOvertakes(cfg: Config, ctx: Ctx, steps: seq<Step>, states: seq<Sys>, us: seq<Req>,
                                          r: Req)
    requires IsRun(cfg, ctx, steps, states) && UntunesThenTune(steps, us, r) && Untunes(us) && us != []
    ensures Overtakes(states[1], steps[1], us[0].handle)
  {
    var u := us[0];
    NoneRemembered(cfg, ctx, steps, states);
    assert UntuneAt(steps, us, 0) && [] + [u] == us[..1];
    UntunesPrefix(us, 1);
    ArriveAt(cfg, ctx, steps, states, 0, u);
    DisableAt(cfg, ctx, steps, states, 1, u.obj);
    OneRemembered(states[0], [], u, CacheOf([]), states[1], states[2]);
  }

  // The three steps of a tune remember nothing.
  lemma TuneNotCounted(steps: seq<Step>, states: seq<Sys>, us: seq<Req>, r: Req, h: int)
    requires UntunesThenTune(steps, us, r) && |states| == |steps| + 1 && us != []
    ensures Remembered(steps, states, 2, |steps|, h) == Remembered(steps, states, 2, 2 * |us|, h)
  {
    var n := 2 * |us|;
    assert steps[n] == steps[n..][0] && steps[n + 1] == steps[n..][1] && steps[n + 2] == steps[n..][2];
    assert Remembered(steps, states, 2, n + 1, h) == Remembered(steps, states, 2, n, h);
    assert Remembered(steps, states, 2, n + 2, h) == Remembered(steps, states, 2, n + 1, h);
  }

  // The bound is exact: with as many other untunes as the cache has room for, of
  // any different handles, the tune is admitted although its untune came first.
  lemma {:induction false} EarlyUntuneForgotten(cfg: Config, ctx: Ctx, steps: seq<Step>, states: seq<Sys>,
                                                us: seq<Req>, r: Req)
    requires IsRun(cfg, ctx, steps, states) && UntunesThenTune(steps, us, r) && IsTune(cfg, us, r)
    requires Untunes(us) && |us| == DEFAULT_CACHE_SIZE + 1 && NoDup(HandlesOf(us)) && r.handle == us[0].handle
    ensures Overtakes(states[1], steps[1], r.handle)
    ensures Remembered(steps, states, 2, |steps|, r.handle) == DEFAULT_CACHE_SIZE
    ensures r.handle in states[|steps|].rm.active
  {
    KCounted(cfg, ctx, steps, states, us, r, |us|, r.handle);
    TuneNotCounted(steps, states, us, r, r.handle);
    KRemembered(cfg, ctx, steps, states, us, r, |us|);
    assert us[..|us|] == us;
    OldestForgotten(HandlesOf(us));
    TuneAdmitted(cfg, ctx, steps, states, us, r);
    FirstOvertakes(cfg, ctx, steps, states, us, r);
  }
}
