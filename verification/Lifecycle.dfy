// The life of a request as interleaved steps. Producer threads verify, register,
// cancel and enqueue; one consumer drains the queue, applies and removes
// requests and frees their objects; timers enqueue untunes of their own. Each
// lock-protected body of the server is one step, and steps interleave freely.

module Lifecycle {
  import opened Types
  import opened ListOrder
  import opened CocoSpec
  import opened Coordinator
  import opened LruCaches
  import opened ClientData
  import opened RequestManagers

  const SERVER_CLEANUP_TRIGGER_PRIORITY := -2

  // Where a producer thread stands with the request object it carries.
  datatype Stage =
    | Verified   // a tune that passed verification, or is trusted
    | Registered // a tune that has entered the active map
    | Arrived    // an untune before its handle is disabled
    | Disabled   // an untune whose handle has been disabled
    | Received   // a retune
    | Checked    // an untune or retune whose handle was found active
    | Expired    // an untune made by a timer

  // Where the consumer stands. Objects are named by their addresses.
  datatype Consumer =
    | Idle
    | Popped(o: nat)
    | Accepting(o: nat)             // the tune was neither cancelled nor completed
    | Marked(o: nat)                // and is now marked as completed
    | Dropping(o: nat)              // the tune is to be forgotten and freed
    | Taking(o: nat, target: nat)   // the untune found its completed tune
    | Taken(o: nat, target: nat)    // which has left the table

  datatype Sys = Sys(
    mem: map<nat, Req>,        // every request object ever allocated
    rm: Rm,
    flights: map<nat, Stage>,  // objects carried by producers
    queue: multiset<nat>,
    consumer: Consumer,
    table: Table,
    tabled: seq<nat>,          // tunes in the table, oldest first
    frees: seq<nat>,           // objects freed, in order
    issued: set<int>,          // the handles of all tunes so far
    nextItem: nat,
    ownerOf: map<int, int>,    // the process of each thread
    clientUntunes: set<nat>,   // untunes that disabled an active handle
    precancelled: set<int>,    // handles disabled before their status was read
    tuneDone: set<int>,        // handles whose tune has been consumed
    untuneDone: set<int>,      // handles of which a client untune has been consumed
    untuned: set<int>)         // handles of which any untune has, a client's or a timer's

  // ---- Steps ----

  datatype Step =
    | NewThread(pid: int, tid: int)
    | NewTune(tune: Req, items: nat)
    | Register(o: nat)
    | Enqueue(o: nat)
    | NewUntune(untune: Req)
    | DisableHandle(o: nat)
    | Reject(o: nat)
    | CheckHandle(o: nat)
    | NewRetune(retune: Req)
    | Expire(t: nat, u: nat)
    | Pop(o: nat)
    | ReadStatus
    | MarkComplete
    | InsertIntoTable(mode: Mode)
    | Drop
    | TakeFromTable(mode: Mode)
    | Release

  function AsTune(r: Req): TuneReq {
    TuneReq(r.items, r.prio)
  }

  function AsTunes(mem: map<nat, Req>, os: seq<nat>): seq<TuneReq>
    requires forall i :: 0 <= i < |os| ==> os[i] in mem
  {
    seq(|os|, i requires 0 <= i < |os| => AsTune(mem[os[i]]))
  }

  // The priority level verification lets a client have.
  // So for verified tunes; trusted ones can have any level.
  predicate PriorityMatchesLevel(cfg: Config, r: Req) {
    LevelOf(cfg, r.pid).Some? && LevelAllows(LevelOf(cfg, r.pid).value, r.prio)
  }

  predicate LevelAllows(permission: Permission, prio: int) {
    match permission
    case PermissionSystem => prio == 0 || prio == 1
    case PermissionThirdParty => prio == 2 || prio == 3
  }

  ghost predicate CanTune(cfg: Config, s: Sys, r: Req, items: nat) {
    && r.kind == Tune && r.obj !in s.mem && r.handle !in s.issued
    && Level(r.prio)
    && r.tid in s.rm.handles && r.tid in s.ownerOf && s.ownerOf[r.tid] == r.pid
    && NoDup(r.items) && forall x :: x in r.items ==> s.nextItem <= x.id < s.nextItem + items
  }

  // The first request of a thread creates its entry.
  function DoNewThread(s: Sys, pid: int, tid: int): Sys {
    if tid !in s.ownerOf && tid !in s.rm.handles then
      s.(ownerOf := s.ownerOf[tid := pid], rm := s.rm.(handles := s.rm.handles[tid := {}]))
    else s
  }

  // A verified or trusted tune of a known thread, with a handle of its own.
  ghost function DoNewTune(cfg: Config, s: Sys, r: Req, items: nat): Sys {
    if CanTune(cfg, s, r, items) then
      s.(mem := s.mem[r.obj := r],
         flights := s.flights[r.obj := Verified],
         issued := s.issued + {r.handle},
         nextItem := s.nextItem + items)
    else s
  }

  function Landed(s: Sys, o: nat): Sys {
    s.(flights := s.flights - {o})
  }

  function Freed(s: Sys, o: nat): Sys {
    s.(frees := s.frees + [o])
  }

  // A producer frees the object it carries.
  function Discarded(s: Sys, rm: Rm, o: nat): Sys {
    Freed(Landed(s.(rm := rm), o), o)
  }

  function Staged(s: Sys, rm: Rm, o: nat, stage: Stage): Sys {
    s.(rm := rm, flights := s.flights[o := stage])
  }

  function Queued(s: Sys, o: nat): Sys {
    Landed(s.(queue := s.queue + multiset{o}), o)
  }

  function DoRegister(cfg: Config, s: Sys, o: nat): Sys {
    if o in s.flights && s.flights[o] == Verified && o in s.mem then
      var a := CheckAndAdd(cfg, s.rm, s.mem[o]);
      if a.ok then Staged(s, a.rm, o, Registered) else Discarded(s, a.rm, o)
    else s
  }

  predicate Enqueueable(stage: Stage) {
    stage == Registered || stage == Checked || stage == Expired
  }

  predicate Rejectable(stage: Stage) {
    stage == Verified || stage == Disabled || stage == Received
  }

  predicate Checkable(stage: Stage) {
    stage == Disabled || stage == Received
  }

  // Messages below the clean-up priority are refused by the queue and lost.
  function DoEnqueue(s: Sys, o: nat): Sys {
    if o in s.flights && Enqueueable(s.flights[o]) && o in s.mem then
      if s.mem[o].prio >= SERVER_CLEANUP_TRIGGER_PRIORITY then Queued(s, o) else Landed(s, o)
    else s
  }

  function Brought(s: Sys, r: Req, stage: Stage): Sys {
    s.(mem := s.mem[r.obj := r], flights := s.flights[r.obj := stage])
  }

  function DoArrive(s: Sys, r: Req, kind: ReqKind, stage: Stage): Sys {
    if r.kind == kind && r.obj !in s.mem && r.items == [] then Brought(s, r, stage) else s
  }

  // The tune of handle h has been admitted but its status has not been read.
  predicate Unread(s: Sys, h: int) {
    h in s.rm.active &&
    var o := s.rm.active[h].req.obj;
    (o in s.flights && s.flights[o] == Registered) || s.queue[o] > 0 || s.consumer == Popped(o)
  }

  function DoDisable(s: Sys, o: nat): Sys
    requires Popping(s.rm.cache) ==> s.rm.cache.queue != []
  {
    if o in s.flights && s.flights[o] == Arrived && o in s.mem then
      var h := s.mem[o].handle;
      var a := Disable(s.rm, h);
      if a.ok then
        Staged(s, a.rm, o, Disabled).(clientUntunes := s.clientUntunes + {o},
                                      precancelled := if Unread(s, h) then s.precancelled + {h} else s.precancelled)
      else Discarded(s, a.rm, o)
    else s
  }

  // The rate limiter or the verifier turns a request away.
  function DoReject(s: Sys, o: nat): Sys {
    if o in s.flights && Rejectable(s.flights[o]) then Discarded(s, s.rm, o) else s
  }

  function DoCheckHandle(s: Sys, o: nat): Sys {
    if o in s.flights && Checkable(s.flights[o]) && o in s.mem then
      if s.mem[o].handle in s.rm.active then Staged(s, s.rm, o, Checked) else Discarded(s, s.rm, o)
    else s
  }

  // The timer of a request in the table fires.
  function DoExpire(s: Sys, t: nat, u: nat): Sys {
    if t in s.tabled && t in s.mem && u !in s.mem then
      var r := s.mem[t];
      Brought(s, Req(u, Untune, r.handle, r.prio, r.pid, r.tid, 0, []), Expired)
    else s
  }

  function Dequeued(s: Sys, o: nat, c: Consumer): Sys {
    s.(queue := s.queue - multiset{o}, consumer := c)
  }

  // The consumer takes a message of the smallest priority value; the clean-up
  // message makes it return without processing anything.
  ghost function DoPop(s: Sys, o: nat): Sys {
    if s.consumer == Idle && s.queue[o] > 0 && o in s.mem
       && (forall p :: s.queue[p] > 0 && p in s.mem ==> s.mem[o].prio <= s.mem[p].prio) then
      Dequeued(s, o, if s.mem[o].prio == SERVER_CLEANUP_TRIGGER_PRIORITY then Idle else Popped(o))
    else s
  }

  function UntuneConsumed(s: Sys, o: nat): Sys
    requires o in s.mem
  {
    s.(untuneDone := if o in s.clientUntunes then s.untuneDone + {s.mem[o].handle} else s.untuneDone,
       untuned := s.untuned + {s.mem[o].handle})
  }

  function DoReadStatus(s: Sys): Sys {
    if s.consumer.Popped? && s.consumer.o in s.mem then
      match s.mem[s.consumer.o].kind
      case Tune => ReadTune(s, s.consumer.o)
      case Untune => ReadUntune(s, s.consumer.o)
      case Retune => Freed(s.(consumer := Idle), s.consumer.o)
    else s
  }

  function ReadTune(s: Sys, o: nat): Sys
    requires o in s.mem
  {
    var h := s.mem[o].handle;
    if h in s.rm.active && (s.rm.active[h].cancelled || s.rm.active[h].completed) then s.(consumer := Dropping(o))
    else s.(consumer := Accepting(o))
  }

  function ReadUntune(s: Sys, o: nat): Sys
    requires o in s.mem
  {
    var h := s.mem[o].handle;
    if h in s.rm.active && s.rm.active[h].completed then s.(consumer := Taking(o, s.rm.active[h].req.obj))
    else UntuneConsumed(Freed(s.(consumer := Idle), o), o)
  }

  function DoMarkComplete(s: Sys): Sys {
    if s.consumer.Accepting? && s.consumer.o in s.mem then
      s.(rm := Complete(s.rm, s.mem[s.consumer.o].handle), consumer := Marked(s.consumer.o))
    else s
  }

  ghost function DoInsert(ctx: Ctx, s: Sys, mode: Mode): Sys
    requires Shape(ctx, s.table)
  {
    if s.consumer.Marked? && s.consumer.o in s.mem then
      var o := s.consumer.o;
      var r := s.mem[o];
      var u := s.(table := InsertAll(ctx, mode, s.table, r.items, r.prio));
      if Accepted(ctx, r.items, r.prio) == 0 then u.(consumer := Dropping(o)) else Settled(u, o)
    else s
  }

  function Settled(s: Sys, o: nat): Sys
    requires o in s.mem
  {
    s.(consumer := Idle, tabled := s.tabled + [o], tuneDone := s.tuneDone + {s.mem[o].handle})
  }

  function DoDrop(s: Sys): Sys {
    if s.consumer.Dropping? && s.consumer.o in s.mem then
      var o := s.consumer.o;
      Freed(s.(rm := Forget(s.rm, s.mem[o]), consumer := Idle, tuneDone := s.tuneDone + {s.mem[o].handle}), o)
    else s
  }

  ghost function DoTake(ctx: Ctx, s: Sys, mode: Mode): Sys
    requires Shape(ctx, s.table)
  {
    if s.consumer.Taking? && s.consumer.target in s.mem then
      var r := s.mem[s.consumer.target];
      s.(table := RemoveAll(ctx, mode, s.table, r.items, r.prio),
         tabled := Without(s.tabled, s.consumer.target),
         consumer := Taken(s.consumer.o, s.consumer.target))
    else s
  }

  function DoRelease(s: Sys): Sys {
    if s.consumer.Taken? && s.consumer.o in s.mem && s.consumer.target in s.mem then
      var o, t := s.consumer.o, s.consumer.target;
      UntuneConsumed(Freed(Freed(s.(rm := Forget(s.rm, s.mem[t]), consumer := Idle), o), t), o)
    else s
  }

  // ---- Where an object is ----

  predicate Held(c: Consumer, o: nat) {
    match c
    case Idle => false
    case Taking(u, t) => o == u
    case Taken(u, t) => o == u || o == t
    case _ => o == c.o
  }

  // The number of places an object is at: carried, queued, held, in the table.
  function Places(s: Sys, o: nat): nat {
    (if o in s.flights then 1 else 0) + s.queue[o] + (if Held(s.consumer, o) then 1 else 0)
      + (if o in s.tabled then 1 else 0)
  }

  // Admitted, not yet in the table.
  predicate Awaiting(s: Sys, o: nat) {
    || (o in s.flights && s.flights[o] == Registered)
    || s.queue[o] > 0
    || s.consumer == Popped(o) || s.consumer == Accepting(o) || s.consumer == Marked(o) || s.consumer == Dropping(o)
  }

  // In the table, or just taken out and about to be released.
  predicate Applied(s: Sys, o: nat) {
    o in s.tabled || (s.consumer.Taken? && s.consumer.target == o)
  }

  // ---- Invariants ----

  // An object is at one place at most, and then it is allocated and not freed.
  ghost predicate PlaceOk(s: Sys, o: nat) {
    Places(s, o) <= 1 && (Places(s, o) >= 1 ==> o in s.mem && o !in s.frees)
  }

  ghost predicate MemoryInv(s: Sys) {
    && (forall o {:trigger PlaceOk(s, o)} :: PlaceOk(s, o))
    && NoDup(s.frees) && (forall o :: o in s.frees ==> o in s.mem)
    && NoDup(s.tabled)
  }

  predicate StageFits(stage: Stage, kind: ReqKind) {
    match stage
    case Verified => kind == Tune
    case Registered => kind == Tune
    case Received => kind == Retune
    case Checked => kind != Tune
    case _ => kind == Untune
  }

  // Who may be where.
  ghost predicate KindInv(mem: map<nat, Req>, flights: map<nat, Stage>, tabled: seq<nat>, c: Consumer) {
    && (forall o :: o in flights ==> o in mem && StageFits(flights[o], mem[o].kind))
    && (forall o :: o in tabled ==> o in mem && mem[o].kind == Tune)
    && match c
       case Idle => true
       case Popped(o) => o in mem
       case Taking(o, t) => o in mem && mem[o].kind == Untune && t in tabled && t in mem
         && mem[t].handle == mem[o].handle
       case Taken(o, t) => o in mem && mem[o].kind == Untune && t in mem && mem[t].kind == Tune
         && mem[t].handle == mem[o].handle
       case _ => c.o in mem && mem[c.o].kind == Tune
  }

  ghost predicate TuneOk(cfg: Config, r: Req, issued: set<int>, ownerOf: map<int, int>) {
    && r.handle in issued
    && Level(r.prio)
    && r.tid in ownerOf && ownerOf[r.tid] == r.pid
  }

  ghost predicate ItemsOk(r: Req, nextItem: nat) {
    NoDup(r.items) && forall x :: x in r.items ==> x.id < nextItem
  }

  ghost predicate Apart(a: Req, b: Req) {
    && (a.kind == Tune && b.kind == Tune ==> a.handle != b.handle)
    && forall x :: x in a.items ==> x !in b.items
  }

  // What identifies requests and their entries.
  ghost predicate IdentityInv(cfg: Config, mem: map<nat, Req>, issued: set<int>, nextItem: nat,
                              ownerOf: map<int, int>) {
    && (forall o :: o in mem ==> mem[o].obj == o)
    && (forall o {:trigger ItemsOk(mem[o], nextItem)} :: o in mem ==> ItemsOk(mem[o], nextItem))
    && (forall o {:trigger TuneOk(cfg, mem[o], issued, ownerOf)} :: o in mem && mem[o].kind == Tune ==>
          TuneOk(cfg, mem[o], issued, ownerOf))
    && (forall a, b {:trigger Apart(mem[a], mem[b])} :: a in mem && b in mem && a != b ==> Apart(mem[a], mem[b]))
  }

  // An entry of the active map is an admitted tune under its own handle, marked
  // completed exactly from the moment its status has been read.
  ghost predicate EntryOk(s: Sys, h: int)
    requires h in s.rm.active
  {
    var o := s.rm.active[h].req.obj;
    && o in s.mem && s.mem[o] == s.rm.active[h].req && s.mem[o].kind == Tune && s.mem[o].handle == h
    && (Awaiting(s, o) || Applied(s, o))
    && (Applied(s, o) || s.consumer == Marked(o) ==> s.rm.active[h].completed)
    && (Unread(s, h) || s.consumer == Accepting(o) ==> !s.rm.active[h].completed)
  }

  // An admitted tune is in the active map, a merely verified one is not.
  ghost predicate TuneMapped(s: Sys, o: nat)
    requires o in s.mem
  {
    s.mem[o].kind == Tune ==>
      && (Awaiting(s, o) || Applied(s, o)
          ==> s.mem[o].handle in s.rm.active && s.rm.active[s.mem[o].handle].req == s.mem[o])
      && (o in s.flights && s.flights[o] == Verified ==> s.mem[o].handle !in s.rm.active)
  }

  ghost predicate MapInv(s: Sys) {
    && (forall h {:trigger EntryOk(s, h)} :: h in s.rm.active ==> EntryOk(s, h))
    && (forall o {:trigger TuneMapped(s, o)} :: o in s.mem ==> TuneMapped(s, o))
  }

  ghost predicate TableInv(ctx: Ctx, s: Sys, modes: set<Mode>) {
    (forall i :: 0 <= i < |s.tabled| ==> s.tabled[i] in s.mem)
      && Good(ctx, State(s.table, AsTunes(s.mem, s.tabled)), modes)
  }
}
