// Per-client bookkeeping: the permission of each process, and for each thread
// its active handles, its health and the time of its last request.

module ClientData {
  import opened Types

  datatype Permission = PermissionSystem | PermissionThirdParty

  datatype TidData = TidData(handles: set<int>, health: real, lastTimestamp: int)

  // At most so many threads of a process are listed.
  const PER_CLIENT_TID_CAP := 32

  // A process: its permission, unless that could not be found out, and threads.
  datatype ClientInfo = ClientInfo(level: Option<Permission>, threads: seq<int>)

  // What creating a client entry starts with.
  const NEW_CLIENT := TidData({}, 100.0, 0)

  predicate SameLimits(a: TidData, b: TidData) {
    a.health == b.health && a.lastTimestamp == b.lastTimestamp
  }

  class ClientDataManager {
    var clientRepo: map<int, ClientInfo>
    var tidRepo: map<int, TidData>

    constructor ()
      ensures clientRepo == map[] && tidRepo == map[]
    {
      clientRepo, tidRepo := map[], map[];
    }

    function HandlesOf(): map<int, set<int>>
      reads this
    {
      map t | t in tidRepo :: tidRepo[t].handles
    }

    predicate ClientExists(pid: int, tid: int)
      reads this
    {
      pid in clientRepo && tid in tidRepo
    }

    // May the thread get an entry, or has it one?
    predicate HasRoom(pid: int, tid: int)
      reads this
    {
      ClientExists(pid, tid) || pid !in clientRepo || |clientRepo[pid].threads| < PER_CLIENT_TID_CAP
    }

    // A new entry for the thread, which becomes one of the threads of its
    // process. A process seen for the first time gets an entry as well, with the
    // permission that its status tells; with too many threads, the entry of the
    // thread is made but reported as a failure.
    method CreateNewClient(pid: int, tid: int, status: Option<Permission>) returns (ok: bool)
      modifies this`tidRepo, this`clientRepo
      ensures ok <==> old(ClientExists(pid, tid)) || pid !in old(clientRepo)
                      || |old(clientRepo)[pid].threads| < PER_CLIENT_TID_CAP
      ensures old(ClientExists(pid, tid)) ==> clientRepo == old(clientRepo) && tidRepo == old(tidRepo)
      ensures !old(ClientExists(pid, tid)) ==> tidRepo == old(tidRepo)[tid := NEW_CLIENT]
      ensures pid !in old(clientRepo) ==> clientRepo == old(clientRepo)[pid := ClientInfo(status, [tid])]
      ensures pid in old(clientRepo) && !old(ClientExists(pid, tid)) ==>
                var info := old(clientRepo)[pid];
                clientRepo == if ok then old(clientRepo)[pid := info.(threads := info.threads + [tid])]
                  else old(clientRepo)
    {
      if ClientExists(pid, tid) {
        return true;
      }
      tidRepo := tidRepo[tid := NEW_CLIENT];
      if pid in clientRepo {
        var info := clientRepo[pid];
        if |info.threads| >= PER_CLIENT_TID_CAP {
          return false;
        }
        clientRepo := clientRepo[pid := info.(threads := info.threads + [tid])];
      } else {
        clientRepo := clientRepo[pid := ClientInfo(status, [tid])];
      }
      return true;
    }

    method GetClientLevelByID(pid: int) returns (r: Option<Permission>)
      ensures r == LevelKnown(pid)
    {
      r := if pid in clientRepo then clientRepo[pid].level else None;
    }

    // The permission of a process, as far as it is known.
    function LevelKnown(pid: int): Option<Permission>
      reads this
    {
      if pid in clientRepo then clientRepo[pid].level else None
    }

    method GetRequestsByClientID(tid: int) returns (r: Option<set<int>>)
      ensures r == if tid in HandlesOf() then Some(HandlesOf()[tid]) else None
    {
      r := if tid in tidRepo then Some(tidRepo[tid].handles) else None;
    }

    method InsertRequestByClientId(tid: int, handle: int)
      modifies this`tidRepo
      ensures HandlesOf() == if tid in old(HandlesOf()) then old(HandlesOf())[tid := old(HandlesOf())[tid] + {handle}]
                             else old(HandlesOf())
      ensures forall t :: t in tidRepo <==> t in old(tidRepo)
      ensures forall t :: t in tidRepo ==> SameLimits(tidRepo[t], old(tidRepo[t]))
    {
      if tid in tidRepo {
        tidRepo := tidRepo[tid := tidRepo[tid].(handles := tidRepo[tid].handles + {handle})];
      }
    }

    method DeleteRequestByClientId(tid: int, handle: int)
      modifies this`tidRepo
      ensures HandlesOf() == if tid in old(HandlesOf()) then old(HandlesOf())[tid := old(HandlesOf())[tid] - {handle}]
                             else old(HandlesOf())
      ensures forall t :: t in tidRepo <==> t in old(tidRepo)
      ensures forall t :: t in tidRepo ==> SameLimits(tidRepo[t], old(tidRepo[t]))
    {
      if tid in tidRepo {
        tidRepo := tidRepo[tid := tidRepo[tid].(handles := tidRepo[tid].handles - {handle})];
      }
    }

    method GetHealthByClientID(tid: int) returns (health: real)
      ensures health == if tid in tidRepo then tidRepo[tid].health else -1.0
    {
      health := if tid in tidRepo then tidRepo[tid].health else -1.0;
    }

    method GetLastRequestTimestampByClientID(tid: int) returns (t: int)
      ensures t == if tid in tidRepo then tidRepo[tid].lastTimestamp else 0
    {
      t := if tid in tidRepo then tidRepo[tid].lastTimestamp else 0;
    }

    method UpdateHealthByClientID(tid: int, health: real)
      modifies this`tidRepo
      ensures tidRepo == if tid in old(tidRepo) then old(tidRepo)[tid := old(tidRepo)[tid].(health := health)]
           else old(tidRepo)
    {
      if tid in tidRepo {
        tidRepo := tidRepo[tid := tidRepo[tid].(health := health)];
      }
    }

    method UpdateLastRequestTimestampByClientID(tid: int, now: int)
      modifies this`tidRepo
      ensures tidRepo == if tid in old(tidRepo) then old(tidRepo)[tid := old(tidRepo)[tid].(lastTimestamp := now)]
           else old(tidRepo)
    {
      if tid in tidRepo {
        tidRepo := tidRepo[tid := tidRepo[tid].(lastTimestamp := now)];
      }
    }
  }
}
