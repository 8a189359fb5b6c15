// The map of active requests: who may enter it, the cancelled and completed
// marks of each entry, and the per-thread handle sets kept in step with it.

module RequestManagers {
  import opened Types
  import opened LruCaches
  import opened ClientData

  datatype ReqKind = Tune | Untune | Retune

  // A request object; obj is the identity of its allocation.
  datatype Req = Req(obj: nat, kind: ReqKind, handle: int, prio: int, pid: int, tid: int, source: int, items: seq<Item>)

  // An active request with its processing marks.
  datatype Entry = Entry(req: Req, cancelled: bool, completed: bool)

  datatype Rm = Rm(active: map<int, Entry>, cache: Lru, handles: map<int, set<int>>)

  // The permission of each process and the cap on active requests.
  datatype Config = Config(maxActive: nat, level: map<int, Permission>)

  function LevelOf(cfg: Config, pid: int): Option<Permission> {
    if pid in cfg.level then Some(cfg.level[pid]) else None
  }

  // The same resource asked for in the same way; the verifier's verdict is not compared.
  predicate SameResource(a: Item, b: Item) {
    && a.res.code == b.res.code
    && a.res.info == b.res.info
    && a.res.optionalInfo == b.res.optionalInfo
    && a.res.values == b.res.values
  }

  predicate SameDemand(a: Req, b: Req) {
    && a.source == b.source
    && |a.items| == |b.items|
    && forall i :: 0 <= i < |a.items| ==> SameResource(a.items[i], b.items[i])
  }

  // Does the active request under handle h stand in the way of req?
  predicate Clashes(cfg: Config, rm: Rm, req: Req, h: int) {
    && h in rm.active
    && !(LevelOf(cfg, req.pid) == Some(PermissionSystem) && (rm.active[h].cancelled || rm.active[h].completed))
    && SameDemand(req, rm.active[h].req)
  }

  predicate Sane(req: Req) {
    req.handle > 0 && req.prio >= 0 && req.pid >= 0 && req.tid >= 0
  }

  predicate IsDuplicate(cfg: Config, rm: Rm, req: Req) {
    req.tid in rm.handles && exists h :: h in rm.handles[req.tid] && Clashes(cfg, rm, req, h)
  }

  predicate ShouldBeAdded(cfg: Config, rm: Rm, req: Req) {
    Sane(req) && |rm.active| < cfg.maxActive && !IsDuplicate(cfg, rm, req)
  }

  datatype Added = Added(rm: Rm, ok: bool)

  function WithHandle(handles: map<int, set<int>>, tid: int, h: int): map<int, set<int>> {
    if tid in handles then handles[tid := handles[tid] + {h}] else handles
  }

  function WithoutHandle(handles: map<int, set<int>>, tid: int, h: int): map<int, set<int>> {
    if tid in handles then handles[tid := handles[tid] - {h}] else handles
  }

  // A handle that is already active is thrown out, one whose untune came first is refused.
  function Add(cfg: Config, rm: Rm, req: Req): Added {
    if |rm.active| >= cfg.maxActive then Added(rm, false)
    else if req.handle in rm.active then Added(rm.(active := rm.active - {req.handle}), false)
    else if req.handle in rm.cache.data then Added(rm, false)
    else
      Added(rm.(active := rm.active[req.handle := Entry(req, false, false)],
                handles := WithHandle(rm.handles, req.tid, req.handle)), true)
  }

  // The check and the insertion, as one step.
  function CheckAndAdd(cfg: Config, rm: Rm, req: Req): Added {
    if ShouldBeAdded(cfg, rm, req) then Add(cfg, rm, req) else Added(rm, false)
  }

  // Exactly the requests that are admitted: well-formed, below the cap, of a
  // handle that is neither active nor remembered as untuned, and no active
  // request of the thread has the same source and, entry by entry, the same
  // code, info words and values, unless a system client asks and that one is
  // cancelled or completed.
  lemma AdmittedIff(cfg: Config, rm: Rm, req: Req)
    ensures CheckAndAdd(cfg, rm, req).ok
       <==> && req.handle > 0 && req.prio >= 0 && req.pid >= 0 && req.tid >= 0
            && |rm.active| < cfg.maxActive && req.handle !in rm.active && req.handle !in rm.cache.data
            && (req.tid in rm.handles ==> forall h :: h in rm.handles[req.tid] && h in rm.active ==>
                  var e := rm.active[h];
                  || (LevelOf(cfg, req.pid) == Some(PermissionSystem) && (e.cancelled || e.completed))
                  || req.source != e.req.source || |req.items| != |e.req.items|
                  || exists i :: 0 <= i < |req.items| && Differ(req.items[i].res, e.req.items[i].res))
  {
    forall a: Item, b: Item ensures Differ(a.res, b.res) <==> !SameResource(a, b) {
    }
    if IsDuplicate(cfg, rm, req) {
      var h :| h in rm.handles[req.tid] && Clashes(cfg, rm, req, h);
    }
  }

  predicate Differ(a: Resource, b: Resource) {
    || a.code != b.code || a.info != b.info || a.optionalInfo != b.optionalInfo || |a.values| != |b.values|
    || exists i :: 0 <= i < |a.values| && a.values[i] != b.values[i]
  }

  // Of the permissions, admission looks at that of the client only.
  lemma OwnLevelDecides(cfg: Config, known: Config, rm: Rm, req: Req)
    requires known.maxActive == cfg.maxActive && LevelOf(known, req.pid) == LevelOf(cfg, req.pid)
    ensures CheckAndAdd(known, rm, req) == CheckAndAdd(cfg, rm, req)
  {
    assert forall h :: Clashes(known, rm, req, h) <==> Clashes(cfg, rm, req, h);
  }

  function Forget(rm: Rm, req: Req): Rm {
    rm.(active := rm.active - {req.handle}, handles := WithoutHandle(rm.handles, req.tid, req.handle))
  }

  function Disable(rm: Rm, h: int): Added
    requires Popping(rm.cache) ==> rm.cache.queue != []
  {
    if h in rm.active then Added(rm.(active := rm.active[h := rm.active[h].(cancelled := true)]), true)
    else Added(rm.(cache := InsertValue(rm.cache, h)), false)
  }

  function Complete(rm: Rm, h: int): Rm {
    if h in rm.active then rm.(active := rm.active[h := rm.active[h].(completed := true)]) else rm
  }

  // An untune that comes before its tune is remembered: as long as fewer other
  // early untunes than the cache has room for come in between, the tune is refused.
  lemma EarlyUntuneBlocksTune(cfg: Config, rm: Rm, later: Rm, handles: seq<int>, req: Req)
    requires Contained(rm.cache) && req.handle !in rm.active && req.handle !in rm.cache.queue
         && |handles| < rm.cache.maxSize
    requires Popping(rm.cache) ==> rm.cache.queue != []
    requires Contained(Disable(rm, req.handle).rm.cache)
    requires later.cache == InsertAllValues(Disable(rm, req.handle).rm.cache, handles)
    ensures !CheckAndAdd(cfg, later, req).ok
  {
    Window(rm.cache, req.handle, handles);
  }

  predicate IsCancelled(active: map<int, Entry>, h: int) {
    h in active && active[h].cancelled
  }

  // The same handles are active; h is marked if it is one of them.
  predicate Cancels(was: map<int, Entry>, now: map<int, Entry>, h: int, ok: bool) {
    now.Keys == was.Keys && (ok <==> h in was) && (ok ==> IsCancelled(now, h))
  }

  class RequestManager {
    const cfg: Config
    const clients: ClientDataManager
    const untuneCache: MinLRUCache
    var activeRequests: map<int, Entry>
    var totalRequestServed: nat

    ghost function View(): Rm
      reads this, clients, untuneCache
    {
      Rm(activeRequests, untuneCache.View(), clients.HandlesOf())
    }

    ghost predicate Valid()
      reads this, clients, untuneCache
    {
      Contained(untuneCache.View())
    }

    // The configuration with the permissions that are known.
    ghost function Known(): Config
      reads this, clients
    {
      cfg.(level := map p | p in clients.clientRepo && clients.LevelKnown(p).Some? :: clients.LevelKnown(p).value)
    }

    constructor (cfg: Config, clients: ClientDataManager, untuneCache: MinLRUCache)
      requires Contained(untuneCache.View())
      ensures Valid() && this.cfg == cfg && this.clients == clients && this.untuneCache == untuneCache
      ensures activeRequests == map[]
    {
      this.cfg, this.clients, this.untuneCache := cfg, clients, untuneCache;
      activeRequests := map[];
      totalRequestServed := 0;
    }

    method IsSane(req: Req) returns (r: bool)
      ensures r == Sane(req)
    {
      if req.handle <= 0 || req.prio < 0 || req.pid < 0 || req.tid < 0 {
        return false;
      }
      return true;
    }

    // Looks through all handles of the requesting thread.
    method RequestMatch(req: Req) returns (r: bool)
      requires Valid()
      ensures r == IsDuplicate(Known(), View(), req)
    {
      var handles := clients.GetRequestsByClientID(req.tid);
      if handles == None {
        return false;
      }
      var left := handles.value;
      while left != {}
        invariant left <= handles.value
        invariant forall h :: h in handles.value && h !in left ==> !Clashes(Known(), View(), req, h)
        decreases left
      {
        SomeMember(left);
        var h :| h in left;
        left := left - {h};
        if h !in activeRequests {
          continue;
        }
        var level := clients.GetClientLevelByID(req.pid);
        if level == Some(PermissionSystem) && (activeRequests[h].cancelled || activeRequests[h].completed) {
          continue;
        }
        var target := activeRequests[h].req;
        if req.source != target.source {
          continue;
        }
        var same := MatchItems(req.items, target.items);
        if same {
          assert Clashes(Known(), View(), req, h);
          return true;
        }
      }
      return false;
    }

    method MatchItems(a: seq<Item>, b: seq<Item>) returns (same: bool)
      ensures same <==> |a| == |b| && forall i :: 0 <= i < |a| ==>
                          && a[i].res.code == b[i].res.code && a[i].res.info == b[i].res.info
                          && a[i].res.optionalInfo == b[i].res.optionalInfo && a[i].res.values == b[i].res.values
    {
      if |a| != |b| {
        return false;
      }
      for i := 0 to |a|
        invariant forall j :: 0 <= j < i ==> SameResource(a[j], b[j])
      {
        var equal := ResourceCmpPolicy(a[i].res, b[i].res);
        if !equal {
          return false;
        }
      }
      return true;
    }

    method ResourceCmpPolicy(a: Resource, b: Resource) returns (same: bool)
      ensures same <==> a.code == b.code && a.info == b.info && a.optionalInfo == b.optionalInfo
                        && a.values == b.values
    {
      if a.code != b.code {
        return false;
      }
      if a.info != b.info {
        return false;
      }
      if a.optionalInfo != b.optionalInfo {
        return false;
      }
      if |a.values| != |b.values| {
        return false;
      }
      for i := 0 to |a.values|
        invariant a.values[..i] == b.values[..i]
      {
        if a.values[i] != b.values[i] {
          return false;
        }
      }
      return true;
    }

    method ShouldRequestBeAdded(req: Req) returns (r: bool)
      requires Valid()
      ensures r == ShouldBeAdded(Known(), View(), req)
    {
      var sane := IsSane(req);
      if !sane || |activeRequests| >= cfg.maxActive {
        return false;
      }
      var duplicate := RequestMatch(req);
      return !duplicate;
    }

    method AddRequest(req: Req) returns (ok: bool)
      requires Valid()
      modifies this`activeRequests, this`totalRequestServed, clients`tidRepo
      ensures Valid()
      ensures Added(View(), ok) == Add(cfg, old(View()), req)
      ensures totalRequestServed == old(totalRequestServed) + if ok then 1 else 0
    {
      if |activeRequests| >= cfg.maxActive {
        return false;
      }
      if req.handle in activeRequests {
        activeRequests := activeRequests - {req.handle};
        return false;
      }
      var untuned := untuneCache.IsPresent(req.handle);
      if untuned {
        return false;
      }
      totalRequestServed := totalRequestServed + 1;
      activeRequests := activeRequests[req.handle := Entry(req, false, false)];
      clients.InsertRequestByClientId(req.tid, req.handle);
      return true;
    }

    method AddToRequestManager(req: Req) returns (ok: bool)
      requires Valid()
      modifies this`activeRequests, this`totalRequestServed, clients`tidRepo
      ensures Valid()
      ensures Added(View(), ok) == CheckAndAdd(old(Known()), old(View()), req)
    {
      var admit := ShouldRequestBeAdded(req);
      if admit {
        ok := AddRequest(req);
      } else {
        ok := false;
      }
    }

    method RemoveRequest(req: Req)
      requires Valid()
      modifies this`activeRequests, clients`tidRepo
      ensures Valid()
      ensures View() == Forget(old(View()), req)
    {
      clients.DeleteRequestByClientId(req.tid, req.handle);
      activeRequests := activeRequests - {req.handle};
    }

    method DisableRequestProcessing(handle: int) returns (ok: bool)
      requires Valid()
      modifies this`activeRequests, untuneCache
      ensures Valid()
      ensures Popping(old(View()).cache) ==> old(View()).cache.queue != []
      ensures Added(View(), ok) == Disable(old(View()), handle)
      ensures Cancels(old(activeRequests), activeRequests, handle, ok)
    {
      ContainedInsert(untuneCache.View(), handle);
      if handle !in activeRequests {
        untuneCache.Insert(handle);
        return false;
      }
      activeRequests := activeRequests[handle := activeRequests[handle].(cancelled := true)];
      return true;
    }

    method MarkRequestAsComplete(handle: int)
      requires Valid()
      modifies this`activeRequests
      ensures Valid()
      ensures View() == Complete(old(View()), handle)
    {
      if handle in activeRequests {
        activeRequests := activeRequests[handle := activeRequests[handle].(completed := true)];
      }
    }

    predicate VerifyHandle(handle: int)
      reads this
    {
      handle in activeRequests
    }

    function GetRequestFromMap(handle: int): Option<Entry>
      reads this
    {
      if handle in activeRequests then Some(activeRequests[handle]) else None
    }
  }
}
