// The coordinator's linked table together with the requests in it. Requests are
// known by their addresses; a ledger records what each asks for, its nodes and
// their links, and which requests are in the table, oldest first.

module LinkedTables {
  import opened Types
  import opened ListOrder
  import opened DLManagers
  import opened CocoSpec
  import opened LiveSet
  import opened Coordinator
  import opened CocoTables

  datatype Ledger = Ledger(tunes: map<nat, TuneReq>, nodes: map<nat, seq<Node>>, owner: map<Node, nat>,
                           own: map<Node, OwnLinks>, live: seq<nat>)

  // Request o is fully on record.
  ghost predicate OnRecord(l: Ledger, o: nat) {
    && o in l.nodes && o in l.tunes
    && Items(l.nodes[o]) == l.tunes[o].items && NoDup(l.tunes[o].items) && Level(l.tunes[o].prio)
    && ChainIn(l.own, l.nodes[o])
    && forall j {:trigger OwnedAt(l, o, j)} :: 0 <= j < |l.nodes[o]| ==> OwnedAt(l, o, j)
  }

  ghost predicate OwnedAt(l: Ledger, o: nat, j: int)
    requires o in l.nodes && 0 <= j < |l.nodes[o]|
  {
    l.nodes[o][j] in l.owner && l.owner[l.nodes[o][j]] == o
  }

  // No entry belongs to two requests.
  ghost predicate ApartTunes(l: Ledger, o: nat, p: nat)
    requires o in l.tunes && p in l.tunes
  {
    forall x :: x in l.tunes[o].items ==> x !in l.tunes[p].items
  }

  ghost predicate LedgerOk(l: Ledger) {
    && l.nodes.Keys == l.tunes.Keys
    && (forall o {:trigger OnRecord(l, o)} :: o in l.tunes ==> OnRecord(l, o))
    && (forall o, p {:trigger ApartTunes(l, o, p)} :: o in l.tunes && p in l.tunes && o != p ==> ApartTunes(l, o, p))
    && NoDup(l.live) && forall o :: o in l.live ==> o in l.tunes
  }

  function TunesOf(tunes: map<nat, TuneReq>, live: seq<nat>): (r: seq<TuneReq>)
    requires forall o :: o in live ==> o in tunes
    ensures |r| == |live|
  {
    seq(|live|, i requires 0 <= i < |live| => tunes[live[i]])
  }

  // The entries of a request on record that is not in the table are new to it.
  lemma NewToLive(l: Ledger, o: nat)
    requires LedgerOk(l) && o in l.tunes && o !in l.live
    ensures FreshRequest(Flatten(TunesOf(l.tunes, l.live)), l.tunes[o].items)
  {
    var reqs := TunesOf(l.tunes, l.live);
    assert OnRecord(l, o);
    forall x, e | x in l.tunes[o].items && e in Flatten(reqs) ensures e.item != x {
      FlattenMembers(reqs, e);
      var i :| 0 <= i < |reqs| && e.item in reqs[i].items && e.prio == reqs[i].prio;
      assert l.live[i] in l.live;
      assert ApartTunes(l, o, l.live[i]);
    }
  }

  // The ledger with one more request.
  ghost function Extended(l: Ledger, o: nat, req: TuneReq, nodes: seq<Node>, links: map<Node, OwnLinks>): Ledger {
    Ledger(l.tunes[o := req], l.nodes[o := nodes], l.owner + (map n | n in nodes :: o), l.own + links, l.live)
  }

  lemma ExtendedOk(l: Ledger, o: nat, req: TuneReq, nodes: seq<Node>, links: map<Node, OwnLinks>)
    requires LedgerOk(l) && o !in l.tunes && Items(nodes) == req.items && NoDup(req.items) && Level(req.prio)
    requires links.Keys == (set n | n in nodes) && ChainIn(links, nodes)
    requires forall n :: n in nodes ==> n !in l.owner && n !in l.own
    requires forall p :: p in l.tunes ==> forall x :: x in req.items ==> x !in l.tunes[p].items
    ensures LedgerOk(Extended(l, o, req, nodes, links))
  {
    var m := Extended(l, o, req, nodes, links);
    forall p | p in m.tunes ensures OnRecord(m, p) {
      assert p != o ==> OnRecord(l, p);
      forall j | 0 <= j < |m.nodes[p]| ensures OwnedAt(m, p, j) && ChainAt(m.own, m.nodes[p], j) {
        if p == o {
          assert ChainAt(links, nodes, j) && nodes[j] in nodes;
        } else {
          assert OwnedAt(l, p, j) && ChainAt(l.own, l.nodes[p], j);
        }
      }
    }
    forall p, q | p in m.tunes && q in m.tunes && p != q ensures ApartTunes(m, p, q) {
      assert p != o && q != o ==> ApartTunes(l, p, q);
    }
  }

  lemma LinksChained(req: Request, links: map<Node, OwnLinks>)
    requires req.Valid() && links == map n | n in req.Nodes() :: OwnOf(n)
    ensures ChainIn(links, req.Nodes())
  {
    var nodes := req.Nodes();
    forall i | 0 <= i < |nodes| ensures ChainAt(links, nodes, i) {
      assert LinkedAt(nodes, REQUEST_LINKER, i);
      assert nodes[i] in nodes;
    }
  }

  // The list of a request, if it has one.
  function OfRequest(req: Request): set<DLManager>
    reads req
  {
    if req.resourceList == null then {} else {req.resourceList}
  }

  // Allocates a request with a node for each entry.
  method BuildRequest(items: seq<Item>, prio: int) returns (req: Request, ghost made: set<object>)
    ensures fresh(made) && req in made && OfRequest(req) <= made && forall n :: n in req.Nodes() ==> n in made
    ensures req.Valid() && req.priority == prio && Items(req.Nodes()) == items
    ensures forall n :: n in req.Nodes() ==> fresh(n)
  {
    req := new Request(prio);
    made := {req};
    for i := 0 to |items|
      invariant req.Valid() && fresh(made) && req in made && OfRequest(req) <= made
      invariant Items(req.Nodes()) == items[..i]
      invariant fresh(req.Nodes()) && fresh(OfRequest(req)) && forall n :: n in req.Nodes() ==> n in made
    {
      var node := new Node(items[i]);
      req.AddResource(node);
      made := made + {node} + OfRequest(req);
    }
  }

  ghost predicate AsRecorded(req: Request, l: Ledger, o: nat)
    reads req, OfRequest(req)
  {
    && o in l.nodes && o in l.tunes && req.priority == l.tunes[o].prio
    && var list := req.resourceList;
       if list == null then l.nodes[o] == []
       else
         && list.linkerInUse == REQUEST_LINKER && list.nodes == l.nodes[o] && list.head == At(list.nodes, 0)
         && list.tail == At(list.nodes, |list.nodes| - 1) && list.size == |list.nodes|
  }

  class LinkedTable {
    const coco: CocoTable
    var requests: map<nat, Request>
    ghost var lists: set<DLManager>
    ghost var ledger: Ledger
    ghost var Repr: set<object>

    // The object of request o is as recorded.
    ghost predicate ObjectOk(l: Ledger, o: nat)
      reads this`requests, this`lists, requests.Values, lists
    {
      && o in requests && OfRequest(requests[o]) <= lists && OfRequest(requests[o]) !! coco.place.Keys
      && AsRecorded(requests[o], l, o)
    }

    // A live request has all its entries where they belong.
    ghost predicate LivePlaced(b: Book, l: Ledger, o: nat) {
      o in l.nodes && o in l.tunes && coco.AllPlaced(b, l.nodes[o], 0, |l.nodes[o]|, l.tunes[o].prio)
    }

    // A node in the table belongs to a live request and is listed.
    ghost predicate HomeOwned(b: Book, l: Ledger, n: Node) {
      && n in l.owner && l.owner[n] in l.live && l.owner[n] in l.nodes && l.owner[n] in l.tunes
      && n in l.nodes[l.owner[n]] && coco.Listed(n, l.tunes[l.owner[n]].prio)
    }

    ghost predicate BookOk(b: Book, l: Ledger) {
      && b.home.Keys <= l.own.Keys
      && (forall o {:trigger LivePlaced(b, l, o)} :: o in l.live ==> LivePlaced(b, l, o))
      && (forall n {:trigger HomeOwned(b, l, n)} :: n in b.home ==> HomeOwned(b, l, n))
    }

    ghost predicate ObjectsOk(l: Ledger)
      reads this`requests, this`lists, requests.Values, lists
    {
      && requests.Keys == l.tunes.Keys && lists !! coco.place.Keys
      && forall o {:trigger ObjectOk(l, o)} :: o in requests ==> ObjectOk(l, o)
    }

    ghost predicate Covered(l: Ledger)
      reads this`requests, this`lists, this`Repr, coco
    {
      && this !in Repr && coco in Repr && coco.place.Keys <= Repr && requests.Values <= Repr && lists <= Repr
      && l.own.Keys <= Repr && coco.bk.home.Keys <= l.own.Keys
    }

    // Everything is as ledger l says.
    ghost predicate Recorded(l: Ledger)
      reads this`requests, this`lists, coco, coco.place.Keys, coco.bk.home.Keys, l.own.Keys, requests.Values, lists
    {
      && coco.Valid() && LedgerOk(l) && BookOk(coco.bk, l)
      && OwnRecorded(l.own) && ObjectsOk(l)
    }

    ghost predicate Holds(l: Ledger)
      reads this`requests, this`lists, this`Repr, coco, Repr
    {
      Covered(l) && Recorded(l)
    }

    // The same of the ledger, but so that a proof looks inside only where it asks
    // for it.
    ghost predicate Valid()
      reads this, coco, Repr
    {
      forall l :: l == ledger ==> Holds(l)
    }

    constructor (ctx: Ctx)
      ensures Valid() && coco.ctx == ctx && View() == EmptyTable(ctx) && fresh(Repr) && this !in Repr
      ensures ledger == Ledger(map[], map[], map[], map[], []) && requests == map[]
    {
      coco := new CocoTable(ctx);
      requests, lists, ledger := map[], {}, Ledger(map[], map[], map[], map[], []);
      new;
      Repr := {coco} + coco.place.Keys;
      assert Holds(ledger);
    }

    ghost function View(): Table
      reads coco
    {
      coco.View()
    }

    lemma Sound()
      requires Valid()
      ensures Holds(ledger) && Shape(coco.ctx, View())
    {
      assert Holds(ledger);
      coco.HasShape();
    }

    // ---- A new request ----

    // The object of the request, and the ledger that has it.
    method PrepareRequest(o: nat, items: seq<Item>, prio: int)
      returns (req: Request, ghost m: Ledger, ghost more: set<object>)
      requires Holds(ledger) && o !in requests && NoDup(items) && Level(prio)
      requires forall p :: p in ledger.tunes ==> forall x :: x in items ==> x !in ledger.tunes[p].items
      ensures Holds(ledger) && fresh(more) && req in more && OfRequest(req) <= more
           && m.own.Keys <= ledger.own.Keys + more
      ensures req.Valid() && req.priority == prio
      ensures LedgerOk(m) && BookOk(coco.bk, m) && OwnRecorded(m.own)
      ensures m.tunes == ledger.tunes[o := TuneReq(items, prio)] && m.nodes == ledger.nodes[o := req.Nodes()]
      ensures m.live == ledger.live
    {
      req, more := BuildRequest(items, prio);
      ghost var nodes := req.Nodes();
      ghost var links := map n | n in nodes :: OwnOf(n);
      m := Extended(ledger, o, TuneReq(items, prio), nodes, links);
      LinksChained(req, links);
      ExtendedOk(ledger, o, TuneReq(items, prio), nodes, links);
      BookExtended(coco.bk, ledger, o, TuneReq(items, prio), nodes, links);
      forall n | n in m.own ensures OwnIs(m.own, n) {
        assert n !in links ==> OwnIs(ledger.own, n);
      }
    }

    method Enroll(o: nat, req: Request, ghost m: Ledger)
      requires ObjectsOk(ledger)
      requires o !in requests && m.tunes.Keys == ledger.tunes.Keys + {o} && m.nodes.Keys == ledger.nodes.Keys + {o}
      requires forall p :: p in ledger.tunes && p in ledger.nodes ==>
                 m.tunes[p] == ledger.tunes[p] && m.nodes[p] == ledger.nodes[p]
      requires req.Valid() && req.priority == m.tunes[o].prio && req.Nodes() == m.nodes[o]
      requires req.resourceList == null || req.resourceList !in coco.place
      modifies this`requests, this`lists
      ensures ObjectsOk(m) && requests == old(requests)[o := req] && lists == old(lists) + OfRequest(req)
    {
      requests := requests[o := req];
      lists := lists + OfRequest(req);
      forall p | p in requests ensures ObjectOk(m, p) {
        assert p != o ==> old(ObjectOk(ledger, p));
      }
    }

    // The same, and everything else is as ledger m says already.
    method EnrollAll(o: nat, req: Request, ghost m: Ledger)
      requires Recorded(ledger) && LedgerOk(m) && BookOk(coco.bk, m) && OwnRecorded(m.own)
      requires o !in requests && m.tunes.Keys == ledger.tunes.Keys + {o} && m.nodes.Keys == ledger.nodes.Keys + {o}
      requires forall p :: p in ledger.tunes && p in ledger.nodes ==>
                 m.tunes[p] == ledger.tunes[p] && m.nodes[p] == ledger.nodes[p]
      requires req.Valid() && req.priority == m.tunes[o].prio && req.Nodes() == m.nodes[o]
      requires req.resourceList == null || req.resourceList !in coco.place
      modifies this`requests, this`lists
      ensures Recorded(m) && requests == old(requests)[o := req] && lists == old(lists) + OfRequest(req)
      ensures requests.Values <= old(requests).Values + {req}
    {
      Enroll(o, req, m);
    }

    // All objects of ledger m become part of what is represented.
    ghost method Claim(m: Ledger, more: set<object>)
      requires Recorded(m) && this !in Repr + more
      requires {coco} + coco.place.Keys + requests.Values + lists + m.own.Keys <= Repr + more
      modifies this`Repr, this`ledger
      ensures Valid() && ledger == m
      ensures Repr == old(Repr) + more
    {
      ledger := m;
      Repr := Repr + more;
      assert Recorded(m);
    }

    // The request becomes known, not yet part of the table.
    method AddRequest(o: nat, items: seq<Item>, prio: int)
      requires Valid() && o !in requests && NoDup(items) && Level(prio)
      requires forall p :: p in ledger.tunes ==> forall x :: x in items ==> x !in ledger.tunes[p].items
      modifies this
      ensures Valid() && requests.Keys == old(requests).Keys + {o}
      ensures ledger.tunes == old(ledger).tunes[o := TuneReq(items, prio)] && ledger.live == old(ledger).live
      ensures fresh(Repr - old(Repr)) && View() == old(View())
    {
      assert Holds(ledger);
      ghost var m;
      var req;
      ghost var more;
      req, m, more := PrepareRequest(o, items, prio);
      EnrollAll(o, req, m);
      Claim(m, more);
    }

    lemma BookExtended(b: Book, l: Ledger, o: nat, req: TuneReq, nodes: seq<Node>, links: map<Node, OwnLinks>)
      requires LedgerOk(l) && BookOk(b, l) && o !in l.tunes && links.Keys == set n | n in nodes
      requires forall n :: n in nodes ==> n !in l.owner && n !in l.own
      ensures BookOk(b, Extended(l, o, req, nodes, links))
    {
      var m := Extended(l, o, req, nodes, links);
      forall p | p in m.live ensures LivePlaced(b, m, p) {
        assert LivePlaced(b, l, p);
      }
      forall n | n in b.home ensures HomeOwned(b, m, n) {
        assert HomeOwned(b, l, n);
      }
    }

    // ---- Before a request goes in or comes out ----

    lemma Ready(o: nat)
      requires Holds(ledger) && o in requests
      ensures o in ledger.nodes && o in ledger.tunes
      ensures requests[o].Valid() && requests[o].Nodes() == ledger.nodes[o] && requests[o].resourceList !in coco.place
      ensures ChainIn(ledger.own, ledger.nodes[o]) && requests[o].priority == ledger.tunes[o].prio
      ensures Items(ledger.nodes[o]) == ledger.tunes[o].items && NoDup(ledger.tunes[o].items)
           && Level(ledger.tunes[o].prio)
    {
      assert ObjectOk(ledger, o) && OnRecord(ledger, o);
      if requests[o].resourceList != null {
        ChainRecorded(ledger.own, requests[o].resourceList);
      }
    }

    // A request that is not in the table has no node or entry in it.
    lemma NotInUse(o: nat)
      requires Holds(ledger) && o in requests && o !in ledger.live
      ensures o in ledger.nodes && coco.AllUnused(coco.bk, ledger.nodes[o], 0)
    {
      assert ObjectOk(ledger, o) && OnRecord(ledger, o);
      var nodes := ledger.nodes[o];
      forall j | 0 <= j < |nodes| ensures coco.UnusedAt(coco.bk, nodes, j) {
        assert OwnedAt(ledger, o, j);
        assert nodes[j] in coco.bk.home ==> HomeOwned(coco.bk, ledger, nodes[j]);
        forall n | n in coco.bk.home ensures n.item != nodes[j].item {
          assert HomeOwned(coco.bk, ledger, n);
          var p := ledger.owner[n];
          assert OnRecord(ledger, p) && ApartTunes(ledger, p, o);
          ItemOf(ledger.nodes[p], n);
          assert Items(nodes)[j] in ledger.tunes[o].items;
        }
      }
    }

    lemma CanInsert(o: nat)
      requires Holds(ledger) && o in requests && o !in ledger.live
      ensures o in ledger.tunes && o in ledger.nodes && Shape(coco.ctx, View())
      ensures requests[o].Valid() && requests[o].Nodes() == ledger.nodes[o] && requests[o].resourceList !in coco.place
      ensures ChainIn(ledger.own, ledger.nodes[o]) && requests[o].priority == ledger.tunes[o].prio
      ensures Items(ledger.nodes[o]) == ledger.tunes[o].items && NoDup(ledger.tunes[o].items)
      ensures coco.AllUnused(coco.bk, ledger.nodes[o], 0)
    {
      Ready(o);
      NotInUse(o);
      coco.HasShape();
    }

    lemma ItemOf(nodes: seq<Node>, n: Node)
      requires n in nodes
      ensures n.item in Items(nodes)
    {
      var j :| 0 <= j < |nodes| && nodes[j] == n;
      assert Items(nodes)[j] == n.item;
    }

    // ---- The ledger after it has ----

    lemma BookAfterInsert(b: Book, c: Book, l: Ledger, o: nat, ok: bool)
      requires LedgerOk(l) && BookOk(b, l) && o in l.tunes && o in l.nodes && o !in l.live
      requires coco.InsertedUpTo(b, c, l.nodes[o], |l.nodes[o]|, l.tunes[o].prio) && c.home.Keys <= l.own.Keys
      requires ok <==> Accepted(coco.ctx, l.tunes[o].items, l.tunes[o].prio) > 0
      ensures BookOk(c, if ok then l.(live := l.live + [o]) else l)
    {
      var m := if ok then l.(live := l.live + [o]) else l;
      var nodes, prio := l.nodes[o], l.tunes[o].prio;
      assert OnRecord(l, o);
      if !ok {
        NothingListed(l.tunes[o].items, nodes, prio);
      }
      forall p | p in m.live ensures LivePlaced(c, m, p) {
        if p in l.live {
          assert LivePlaced(b, l, p);
          PlacedStays(b, c, l.nodes[p], l.tunes[p].prio);
        }
      }
      forall n | n in c.home ensures HomeOwned(c, m, n) {
        assert coco.MayJoin(b, c, nodes, prio, n);
        if n in b.home {
          assert HomeOwned(b, l, n);
        } else {
          var j :| 0 <= j < |nodes| && nodes[j] == n;
          assert OwnedAt(l, o, j);
        }
      }
    }

    lemma RecordInsert(b: Book, c: Book, l: Ledger, o: nat, ok: bool)
      requires LedgerOk(l) && BookOk(b, l) && o in l.tunes && o in l.nodes && o !in l.live
      requires coco.InsertedUpTo(b, c, l.nodes[o], |l.nodes[o]|, l.tunes[o].prio) && c.home.Keys <= l.own.Keys
      requires ok <==> Accepted(coco.ctx, l.tunes[o].items, l.tunes[o].prio) > 0
      ensures var m := if ok then l.(live := l.live + [o]) else l; BookOk(c, m) && LedgerOk(m)
    {
      BookAfterInsert(b, c, l, o, ok);
      LedgerAfterInsert(l, o);
    }

    lemma PlacedStays(b: Book, c: Book, nodes: seq<Node>, prio: int)
      requires coco.AllPlaced(b, nodes, 0, |nodes|, prio) && coco.HomeKept(b, c)
      ensures coco.AllPlaced(c, nodes, 0, |nodes|, prio)
    {
      forall j | 0 <= j < |nodes| ensures coco.PlacedAt(c, nodes, j, prio) {
        assert coco.PlacedAt(b, nodes, j, prio);
        assert coco.PlaceKept(b, c, nodes[j]);
      }
    }

    lemma BookAfterRemove(b: Book, c: Book, l: Ledger, o: nat)
      requires LedgerOk(l) && BookOk(b, l) && o in l.live && o in l.nodes && o in l.tunes
      requires coco.RemovedUpTo(b, c, l.nodes[o], |l.nodes[o]|, l.tunes[o].prio) && c.home.Keys <= l.own.Keys
      ensures BookOk(c, l.(live := Without(l.live, o)))
    {
      var m := l.(live := Without(l.live, o));
      var nodes, prio := l.nodes[o], l.tunes[o].prio;
      WithoutMembers(l.live, o);
      forall p | p in m.live ensures LivePlaced(c, m, p) {
        assert LivePlaced(b, l, p) && OnRecord(l, p);
        forall j | 0 <= j < |l.nodes[p]| ensures coco.PlacedAt(c, l.nodes[p], j, l.tunes[p].prio) {
          assert coco.PlacedAt(b, l.nodes[p], j, l.tunes[p].prio);
          assert OwnedAt(l, p, j);
          NotAmong(l, o, l.nodes[p][j]);
          assert l.nodes[p][j] in b.home ==> coco.PlaceKept(b, c, l.nodes[p][j]);
        }
      }
      forall n | n in c.home ensures HomeOwned(c, m, n) {
        assert coco.PlaceKept(c, b, n);
        assert HomeOwned(b, l, n);
        forall j | 0 <= j < |nodes| ensures l.owner[n] == o ==> nodes[j] != n {
          assert coco.GoneAt(c, nodes, j, prio);
        }
      }
    }

    // A node of another owner is not among the nodes of request o.
    lemma NotAmong(l: Ledger, o: nat, n: Node)
      requires LedgerOk(l) && o in l.tunes && n in l.owner && l.owner[n] != o
      ensures o in l.nodes && n !in l.nodes[o]
    {
      assert OnRecord(l, o);
      forall j | 0 <= j < |l.nodes[o]| ensures l.nodes[o][j] != n {
        assert OwnedAt(l, o, j);
      }
    }

    lemma NothingListed(items: seq<Item>, nodes: seq<Node>, prio: int)
      requires items == Items(nodes) && Accepted(coco.ctx, items, prio) == 0
      ensures forall n :: n in nodes ==> !coco.Listed(n, prio)
    {
      forall n | n in nodes ensures !coco.Listed(n, prio) {
        var j :| 0 <= j < |nodes| && nodes[j] == n;
        NoneAccepted(items, prio, j);
      }
    }

    lemma {:induction false} NoneAccepted(items: seq<Item>, prio: int, j: nat)
      requires Accepted(coco.ctx, items, prio) == 0 && j < |items|
      ensures Target(coco.ctx, items[j].res, prio) == None
    {
      if j < |items| - 1 {
        NoneAccepted(items[..|items| - 1], prio, j);
      }
    }

    // ---- The operations ----

    method InsertEntries(o: nat, mode: Mode) returns (ok: bool)
      requires Holds(ledger) && o in requests && o !in ledger.live
      modifies coco`bk, coco`applied, coco`log, coco.place.Keys, ledger.own.Keys
      ensures coco.Valid() && OwnRecorded(ledger.own) && ObjectsOk(ledger) && coco.bk.home.Keys <= ledger.own.Keys
      ensures o in ledger.tunes && o in ledger.nodes && Shape(coco.ctx, old(View()))
      ensures coco.InsertedUpTo(old(coco.bk), coco.bk, ledger.nodes[o], |ledger.nodes[o]|, ledger.tunes[o].prio)
      ensures View() == InsertAll(coco.ctx, mode, old(View()), ledger.tunes[o].items, ledger.tunes[o].prio)
      ensures ok <==> Accepted(coco.ctx, ledger.tunes[o].items, ledger.tunes[o].prio) > 0
    {
      CanInsert(o);
      ok := coco.InsertRequest(mode, requests[o], View(), ledger.own);
      ObjectsKept(ledger);
    }

    lemma OnLedger(o: nat)
      requires Holds(ledger) && o in requests
      ensures o in ledger.tunes
    {
    }

    method InsertLinked(o: nat, mode: Mode) returns (ok: bool, ghost m: Ledger)
      requires Holds(ledger) && o in requests && o !in ledger.live
      modifies coco`bk, coco`applied, coco`log, coco.place.Keys, ledger.own.Keys
      ensures Holds(m)
      ensures o in ledger.tunes && m == ledger.(live := if ok then ledger.live + [o] else ledger.live)
      ensures Shape(coco.ctx, old(View()))
      ensures View() == InsertAll(coco.ctx, mode, old(View()), ledger.tunes[o].items, ledger.tunes[o].prio)
      ensures ok <==> Accepted(coco.ctx, ledger.tunes[o].items, ledger.tunes[o].prio) > 0
    {
      ok := InsertEntries(o, mode);
      m := if ok then ledger.(live := ledger.live + [o]) else ledger;
      RecordInsert(old(coco.bk), coco.bk, ledger, o, ok);
      SameObjects(ledger, m);
    }

    lemma SameObjects(l: Ledger, m: Ledger)
      requires ObjectsOk(l) && m.nodes == l.nodes && m.tunes == l.tunes
      ensures ObjectsOk(m)
    {
      forall o | o in requests ensures ObjectOk(m, o) {
        assert ObjectOk(l, o);
      }
    }

    // A change of the live requests only concerns no object.
    twostate lemma ObjectsKept(m: Ledger)
      requires old(ObjectsOk(ledger)) && m.nodes == ledger.nodes && m.tunes == ledger.tunes
      requires unchanged(this) && (forall o :: o in requests ==> unchanged(requests[o]))
      requires forall d :: d in lists ==> unchanged(d)
      ensures ObjectsOk(m)
    {
      forall o | o in requests ensures ObjectOk(m, o) {
        assert old(ObjectOk(ledger, o));
      }
    }

    ghost method Adopt(m: Ledger)
      requires Holds(m)
      modifies this`ledger
      ensures Valid() && ledger == m
    {
      ledger := m;
    }

    // Puts a request into the table that is not in it. Its pass-through entries
    // have then been applied, unless the mode forbids it.
    method Insert(o: nat, mode: Mode) returns (ok: bool)
      requires Valid() && o in requests && o !in ledger.live
      modifies this`ledger, Repr
      ensures Valid() && Repr == old(Repr)
      ensures o in ledger.tunes
           && ledger == old(ledger).(live := if ok then old(ledger).live + [o] else old(ledger).live)
      ensures Shape(coco.ctx, old(View()))
      ensures View() == InsertAll(coco.ctx, mode, old(View()), ledger.tunes[o].items, ledger.tunes[o].prio)
      ensures ok <==> Accepted(coco.ctx, ledger.tunes[o].items, ledger.tunes[o].prio) > 0
      ensures AllPassedOn(coco.ctx, mode, old(coco.log), coco.log, ledger.tunes[o].items, ledger.tunes[o].prio)
    {
      ghost var m;
      assert Holds(ledger);
      ghost var t := View();
      coco.HasShape();
      OnLedger(o);
      InsertAllPassesOn(coco.ctx, mode, t, ledger.tunes[o].items, ledger.tunes[o].prio);
      ok, m := InsertLinked(o, mode);
      Adopt(m);
    }

    method RemoveLinked(o: nat, mode: Mode) returns (ghost m: Ledger)
      requires Holds(ledger) && o in ledger.live
      modifies coco`bk, coco`applied, coco`log, coco.place.Keys, ledger.own.Keys
      ensures Holds(m)
      ensures o in ledger.tunes && m == ledger.(live := Without(ledger.live, o))
      ensures Shape(coco.ctx, old(View()))
      ensures View() == RemoveAll(coco.ctx, mode, old(View()), ledger.tunes[o].items, ledger.tunes[o].prio)
    {
      assert o in requests;
      Ready(o);
      assert LivePlaced(coco.bk, ledger, o);
      coco.HasShape();
      coco.RemoveRequest(mode, requests[o], View(), ledger.own);
      m := ledger.(live := Without(ledger.live, o));
      BookAfterRemove(old(coco.bk), coco.bk, ledger, o);
      LedgerAfterRemove(ledger, o);
      ObjectsKept(m);
    }

    // Takes a request out of the table that is in it.
    method Remove(o: nat, mode: Mode)
      requires Valid() && o in ledger.live
      modifies this`ledger, Repr
      ensures Valid() && Repr == old(Repr)
      ensures o in ledger.tunes && ledger == old(ledger).(live := Without(old(ledger).live, o))
      ensures Shape(coco.ctx, old(View()))
      ensures View() == RemoveAll(coco.ctx, mode, old(View()), ledger.tunes[o].items, ledger.tunes[o].prio)
    {
      assert Holds(ledger);
      ghost var m := RemoveLinked(o, mode);
      Adopt(m);
    }
  }

  lemma LedgerAfterInsert(l: Ledger, o: nat)
    requires LedgerOk(l) && o in l.tunes && o !in l.live
    ensures LedgerOk(l.(live := l.live + [o]))
  {
    var m := l.(live := l.live + [o]);
    forall p | p in m.tunes ensures OnRecord(m, p) {
      assert OnRecord(l, p);
      forall j | 0 <= j < |m.nodes[p]| ensures OwnedAt(m, p, j) {
        assert OwnedAt(l, p, j);
      }
    }
    forall p, q | p in m.tunes && q in m.tunes && p != q ensures ApartTunes(m, p, q) {
      assert ApartTunes(l, p, q);
    }
  }

  lemma LedgerAfterRemove(l: Ledger, o: nat)
    requires LedgerOk(l) && o in l.live
    ensures LedgerOk(l.(live := Without(l.live, o)))
  {
    var m := l.(live := Without(l.live, o));
    WithoutMembers(l.live, o);
    var k :| 0 <= k < |l.live| && l.live[k] == o;
    WithoutAt(l.live, k);
    forall p | p in m.tunes ensures OnRecord(m, p) {
      assert OnRecord(l, p);
      forall j | 0 <= j < |m.nodes[p]| ensures OwnedAt(m, p, j) {
        assert OwnedAt(l, p, j);
      }
    }
    forall p, q | p in m.tunes && q in m.tunes && p != q ensures ApartTunes(m, p, q) {
      assert ApartTunes(l, p, q);
    }
  }

  // ---- Runs ----

  datatype TableOp = PutIn(o: nat, mode: Mode) | TakeOut(k: nat, mode: Mode)

  // The same operations on values.
  function AsOp(tunes: map<nat, TuneReq>, op: TableOp): Op
    requires op.PutIn? ==> op.o in tunes
  {
    match op
    case PutIn(o, mode) => Op.Insert(tunes[o], mode)
    case TakeOut(k, mode) => Op.Remove(k, mode)
  }

  function AsOps(tunes: map<nat, TuneReq>, ops: seq<TableOp>): (r: seq<Op>)
    requires forall i :: 0 <= i < |ops| && ops[i].PutIn? ==> ops[i].o in tunes
    ensures |r| == |ops|
  {
    seq(|ops|, i requires 0 <= i < |ops| => AsOp(tunes, ops[i]))
  }

  // Table and live requests, on values.
  ghost function StateOf(lt: LinkedTable): State
    requires lt.Valid()
    reads lt, lt.coco, lt.Repr
  {
    assert lt.Holds(lt.ledger);
    State(lt.View(), TunesOf(lt.ledger.tunes, lt.ledger.live))
  }

  // A request in the table has entries in it.
  ghost predicate NoneEmpty(l: Ledger) {
    forall o :: o in l.live ==> o in l.tunes && l.tunes[o].items != []
  }

  method PerformPutIn(lt: LinkedTable, o: nat, mode: Mode, live: seq<nat>) returns (live': seq<nat>)
    requires lt.Valid() && live == lt.ledger.live && NoneEmpty(lt.ledger) && o in lt.requests && o !in live
    modifies lt`ledger, lt.Repr
    ensures lt.Valid() && live' == lt.ledger.live && NoneEmpty(lt.ledger)
    ensures o in old(lt.ledger).tunes && lt.ledger == old(lt.ledger).(live := live')
    ensures Shape(lt.coco.ctx, old(lt.View()))
    ensures StateOf(lt) == Step(lt.coco.ctx, old(StateOf(lt)), Op.Insert(lt.ledger.tunes[o], mode))
  {
    lt.Sound();
    InsertIsStep(lt.coco.ctx, StateOf(lt), lt.ledger, o, mode);
    var ok := lt.Insert(o, mode);
    live' := if ok then live + [o] else live;
  }

  // What one insertion does on values.
  lemma InsertIsStep(ctx: Ctx, st: State, l: Ledger, o: nat, mode: Mode)
    requires LedgerOk(l) && NoneEmpty(l) && o in l.tunes && o !in l.live
    requires Shape(ctx, st.table) && st.reqs == TunesOf(l.tunes, l.live)
    ensures var ok := Accepted(ctx, l.tunes[o].items, l.tunes[o].prio) > 0;
      && Step(ctx, st, Op.Insert(l.tunes[o], mode))
         == State(InsertAll(ctx, mode, st.table, l.tunes[o].items, l.tunes[o].prio),
                  TunesOf(l.tunes, if ok then l.live + [o] else l.live))
      && NoneEmpty(l.(live := if ok then l.live + [o] else l.live))
  {
    NewToLive(l, o);
    assert OnRecord(l, o);
    MoreTunes(l.tunes, l.live, o);
  }

  lemma MoreTunes(tunes: map<nat, TuneReq>, live: seq<nat>, o: nat)
    requires o in tunes && forall p :: p in live ==> p in tunes
    ensures TunesOf(tunes, live + [o]) == TunesOf(tunes, live) + [tunes[o]]
  {
  }

  lemma FewerTunes(tunes: map<nat, TuneReq>, live: seq<nat>, k: nat)
    requires k < |live| && NoDup(live) && forall p :: p in live ==> p in tunes
    ensures Without(live, live[k]) == live[..k] + live[k + 1..]
    ensures TunesOf(tunes, live[..k] + live[k + 1..]) == TunesOf(tunes, live)[..k] + TunesOf(tunes, live)[k + 1..]
  {
    WithoutAt(live, k);
    TunesConcat(tunes, live[..k], live[k + 1..]);
    TunesCut(tunes, live, k);
  }

  lemma TunesConcat(tunes: map<nat, TuneReq>, a: seq<nat>, b: seq<nat>)
    requires (forall p :: p in a ==> p in tunes) && forall p :: p in b ==> p in tunes
    ensures TunesOf(tunes, a + b) == TunesOf(tunes, a) + TunesOf(tunes, b)
  {
  }

  lemma TunesCut(tunes: map<nat, TuneReq>, live: seq<nat>, k: nat)
    requires k < |live| && forall p :: p in live ==> p in tunes
    ensures TunesOf(tunes, live[..k]) == TunesOf(tunes, live)[..k]
    ensures TunesOf(tunes, live[k + 1..]) == TunesOf(tunes, live)[k + 1..]
  {
  }

  method PerformTakeOut(lt: LinkedTable, k: nat, mode: Mode, live: seq<nat>) returns (live': seq<nat>)
    requires lt.Valid() && live == lt.ledger.live && NoneEmpty(lt.ledger)
    modifies lt`ledger, lt.Repr
    ensures lt.Valid() && live' == lt.ledger.live && NoneEmpty(lt.ledger)
    ensures lt.ledger == old(lt.ledger).(live := live')
    ensures Shape(lt.coco.ctx, old(lt.View()))
    ensures StateOf(lt) == Step(lt.coco.ctx, old(StateOf(lt)), Op.Remove(k, mode))
  {
    lt.Sound();
    if k >= |live| {
      return live;
    }
    FewerTunes(lt.ledger.tunes, live, k);
    lt.Remove(live[k], mode);
    live' := live[..k] + live[k + 1..];
  }

  // One operation on the linked table does what it does on values.
  method Perform(lt: LinkedTable, op: TableOp, live: seq<nat>) returns (live': seq<nat>)
    requires lt.Valid() && live == lt.ledger.live && NoneEmpty(lt.ledger) && (op.PutIn? ==> op.o in lt.requests)
    modifies lt`ledger, lt.Repr
    ensures lt.Valid() && live' == lt.ledger.live && NoneEmpty(lt.ledger)
    ensures lt.ledger == old(lt.ledger).(live := live')
    ensures op.PutIn? ==> op.o in old(lt.ledger).tunes
    ensures Shape(lt.coco.ctx, old(lt.View()))
    ensures StateOf(lt) == Step(lt.coco.ctx, old(StateOf(lt)), AsOp(lt.ledger.tunes, op))
  {
    live' := live;
    lt.Sound();
    match op
    case PutIn(o, mode) =>
      if o in live {
        LiveIsNotFresh(lt.ledger, o);
      } else {
        live' := PerformPutIn(lt, o, mode, live);
      }
    case TakeOut(k, mode) => live' := PerformTakeOut(lt, k, mode, live);
  }

  lemma LiveIsNotFresh(l: Ledger, o: nat)
    requires LedgerOk(l) && NoneEmpty(l) && o in l.live
    ensures !FreshRequest(Flatten(TunesOf(l.tunes, l.live)), l.tunes[o].items)
  {
    var reqs, x := TunesOf(l.tunes, l.live), l.tunes[o].items[0];
    var i :| 0 <= i < |l.live| && l.live[i] == o;
    assert x in l.tunes[o].items && reqs[i] == l.tunes[o];
    var k := FlattenHas(reqs, i, x);
    assert Flatten(reqs)[k] in Flatten(reqs);
  }

  // Any run of insertions and removals on the linked table, with any number of
  // requests in it at a time, does what the same run does on values.
  method RunOps(lt: LinkedTable, ops: seq<TableOp>) returns (live: seq<nat>)
    requires lt.Valid() && lt.ledger.live == [] && lt.View() == EmptyTable(lt.coco.ctx)
    requires forall i :: 0 <= i < |ops| && ops[i].PutIn? ==> ops[i].o in lt.requests
    modifies lt`ledger, lt.Repr
    ensures lt.Valid() && live == lt.ledger.live && lt.ledger == old(lt.ledger).(live := live)
    ensures forall i :: 0 <= i < |ops| && ops[i].PutIn? ==> ops[i].o in lt.ledger.tunes
    ensures StateOf(lt) == Run(lt.coco.ctx, AsOps(lt.ledger.tunes, ops))
  {
    live := [];
    ghost var l, ctx, repr := lt.ledger, lt.coco.ctx, lt.Repr;
    lt.Sound();
    for i := 0 to |ops|
      invariant lt.Valid() && live == lt.ledger.live && NoneEmpty(lt.ledger) && lt.ledger == l.(live := live)
      invariant lt.Repr == repr
      invariant StateOf(lt) == Run(ctx, AsOps(l.tunes, ops[..i]))
    {
      MoreOps(l.tunes, ops, i);
      live := Perform(lt, ops[i], live);
    }
    assert ops[..|ops|] == ops;
  }

  lemma MoreOps(tunes: map<nat, TuneReq>, ops: seq<TableOp>, i: nat)
    requires i < |ops| && forall j :: 0 <= j < |ops| && ops[j].PutIn? ==> ops[j].o in tunes
    ensures var r := AsOps(tunes, ops[..i + 1]);
      r[..|r| - 1] == AsOps(tunes, ops[..i]) && r[|r| - 1] == AsOp(tunes, ops[i])
  {
  }

  // ---- What is in force, in terms of the linked lists ----

  // The register names the first level whose list has a head, and the hardware
  // holds the value of that head; with no head anywhere it holds the default.
  ghost predicate HeadApplied(coco: CocoTable, row: int)
    requires coco.Dimensions() && GlobalManaged(coco.ctx, row) && |coco.applied| == |coco.ctx.confs|
    reads coco, coco.place.Keys, set q | 0 <= q < TOTAL_PRIORITIES :: coco.Manager(Slot(row, q))
  {
    var p := coco.applied[row];
    if p == -1 then
      && (forall q :: Level(q) ==> coco.Manager(Slot(row, q)).head == null)
      && InForce(coco.log, row) == None
    else
      && Level(p) && coco.Manager(Slot(row, p)).head != null
      && InForce(coco.log, row) == Some(coco.Manager(Slot(row, p)).head.item)
      && forall q :: Level(q) && q < p ==> coco.Manager(Slot(row, q)).head == null
  }

  lemma HeadOfLevel(coco: CocoTable, row: int, q: int)
    requires coco.Valid() && GlobalManaged(coco.ctx, row) && Level(q)
    ensures var head, list := coco.Manager(Slot(row, q)).head, LevelList(coco.View(), row, 0, q);
      (head == null <==> list == []) && (head != null ==> head.item == list[0])
  {
    assert coco.SlotOk(coco.bk, Slot(row, q));
  }

  lemma ArbitratedHead(coco: CocoTable, row: int)
    requires coco.Valid() && GlobalManaged(coco.ctx, row) && Arbitrated(coco.View(), row, 0)
    ensures HeadApplied(coco, row)
  {
    forall q | Level(q)
      ensures coco.Manager(Slot(row, q)).head == null <==> LevelList(coco.View(), row, 0, q) == []
    {
      HeadOfLevel(coco, row, q);
    }
    if coco.applied[row] != -1 {
      HeadOfLevel(coco, row, coco.applied[row]);
    }
  }

  // After any run, every global list-managed resource that admits the modes
  // used has the head of its first non-empty list applied, and that head is the
  // best of all live entries.
  lemma RunsApplyHeads(lt: LinkedTable, ops: seq<TableOp>, modes: set<Mode>, row: int, i: nat)
    requires lt.Valid()
    requires forall j :: 0 <= j < |ops| ==> ops[j].mode in modes && (ops[j].PutIn? ==> ops[j].o in lt.ledger.tunes)
    requires StateOf(lt) == Run(lt.coco.ctx, AsOps(lt.ledger.tunes, ops))
    requires GlobalManaged(lt.coco.ctx, row) && modes <= lt.coco.ctx.confs[row].modes
    ensures lt.coco.Valid() && HeadApplied(lt.coco, row)
    ensures var live, policy := Flatten(StateOf(lt).reqs), lt.coco.ctx.confs[row].policy;
      OnRow(lt.coco.ctx, live, row, i) ==>
        (InForce(lt.coco.log, row) == Some(live[i].item)
         <==> forall j | OnRow(lt.coco.ctx, live, row, j) && j != i :: Better(policy, live, i, j))
  {
    lt.Sound();
    var run := AsOps(lt.ledger.tunes, ops);
    forall op | op in run ensures op.mode in modes {
      var j :| 0 <= j < |run| && run[j] == op;
      assert ops[j].mode in modes;
    }
    RunGood(lt.coco.ctx, run, modes);
    assert Arbitrated(lt.View(), row, 0);
    ArbitratedHead(lt.coco, row);
    InForceIsBest(lt.coco.ctx, lt.View(), Flatten(StateOf(lt).reqs), row, i);
  }
}
