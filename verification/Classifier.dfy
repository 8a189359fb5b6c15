// The classifier's record of the applications it has tuned for. Handles are
// queued under the number of their client; when too many clients are active,
// the handles of the oldest one are untuned together.

module Classifiers {

  datatype Tracked = Tracked(client: nat, handle: int)

  // What an application start brings: whether its name could be read, whether
  // it is a priority client, and the handles its signals acquired.
  datatype Event = Open(pid: int, named: bool, priority: bool, handles: seq<int>) | Close(pid: int)

  // The last two fields are histories: everything ever queued, and everything evicted.
  datatype State = State(queue: seq<Tracked>, tracker: nat, count: nat, pushed: seq<Tracked>, evicted: seq<Tracked>)

  const START := State([], 0, 0, [], [])

  // ---- One event ----

  // The handles at the front that belong to client c.
  function Lead(q: seq<Tracked>, c: nat): (n: nat)
    ensures n <= |q|
    ensures forall i :: 0 <= i < n ==> q[i].client == c
    ensures n < |q| ==> q[n].client != c
  {
    if q != [] && q[0].client == c then 1 + Lead(q[1..], c) else 0
  }

  function Reshuffled(st: State, threshold: nat): State {
    if st.queue == [] then st.(count := 0)
    else if st.count >= threshold then
      var n := Lead(st.queue, st.queue[0].client);
      st.(queue := st.queue[n..], evicted := st.evicted + st.queue[..n], count := if st.count > 0 then st.count - 1
          else 0)
    else st
  }

  // Handle -1 stands for none.
  function Entries(client: nat, handles: seq<int>): (r: seq<Tracked>)
    ensures forall t :: t in r ==> t.client == client
  {
    if handles == [] then []
    else
      var last := handles[|handles| - 1];
      Entries(client, handles[..|handles| - 1]) + if last == -1 then [] else [Tracked(client, last)]
  }

  function Opened(st: State, handles: seq<int>): State {
    var more := Entries(st.tracker, handles);
    st.(queue := st.queue + more, pushed := st.pushed + more, count := st.count + if more == [] then 0 else 1)
  }

  function Step(st: State, ev: Event, threshold: nat): State {
    match ev
    case Close(_) => st
    case Open(pid, named, priority, handles) =>
      if pid == -1 then st.(tracker := st.tracker + 1)
      else if !named then st
      else if priority then st.(tracker := st.tracker + 1)
      else
        var u := Opened(Reshuffled(st, threshold), handles);
        u.(tracker := u.tracker + 1)
  }

  function Run(evs: seq<Event>, threshold: nat): State {
    if evs == [] then START else Step(Run(evs[..|evs| - 1], threshold), evs[|evs| - 1], threshold)
  }

  // ---- The invariant ----

  function Clients(q: seq<Tracked>): set<nat> {
    set t | t in q :: t.client
  }

  ghost predicate Sorted(q: seq<Tracked>) {
    forall i, j :: 0 <= i < j < |q| ==> q[i].client <= q[j].client
  }

  // The queue is in the order of the clients, all of them numbered before the
  // next one, and the count is the number of different clients in it.
  ghost predicate QueueOk(st: State) {
    && Sorted(st.queue) && (forall t :: t in st.queue ==> t.client < st.tracker)
    && st.count == |Clients(st.queue)|
    && st.pushed == st.evicted + st.queue
  }

  lemma ClientIn(q: seq<Tracked>, i: nat)
    requires i < |q|
    ensures q[i].client in Clients(q)
  {
    assert q[i] in q;
  }

  lemma ClientAt(q: seq<Tracked>, x: nat) returns (i: nat)
    requires x in Clients(q)
    ensures i < |q| && q[i].client == x
  {
    var t :| t in q && t.client == x;
    i :| 0 <= i < |q| && q[i] == t;
  }

  // In a sorted queue the leading handles of a client are all it has.
  lemma LeadIsAll(q: seq<Tracked>, i: nat)
    requires Sorted(q) && i < |q|
    ensures q[i].client == q[0].client <==> i < Lead(q, q[0].client)
  {
    var n := Lead(q, q[0].client);
    assert q[0].client <= q[i].client;
    if n <= i {
      assert q[n].client <= q[i].client && q[0].client <= q[n].client;
    }
  }

  lemma {:induction false} LeftIsYounger(q: seq<Tracked>, x: nat)
    requires Sorted(q) && q != [] && x in Clients(q[Lead(q, q[0].client)..])
    ensures x in Clients(q) && x != q[0].client
  {
    var n := Lead(q, q[0].client);
    var i := ClientAt(q[n..], x);
    assert q[n..][i] == q[i + n];
    ClientIn(q, i + n);
    LeadIsAll(q, i + n);
  }

  lemma {:induction false} YoungerIsLeft(q: seq<Tracked>, x: nat)
    requires Sorted(q) && q != [] && x in Clients(q) && x != q[0].client
    ensures x in Clients(q[Lead(q, q[0].client)..])
  {
    var n := Lead(q, q[0].client);
    var i := ClientAt(q, x);
    LeadIsAll(q, i);
    assert q[n..][i - n] == q[i];
    ClientIn(q[n..], i - n);
  }

  // Evicting takes away exactly the oldest client.
  lemma {:induction false} EvictsOldest(q: seq<Tracked>)
    requires Sorted(q) && q != []
    ensures Clients(q[Lead(q, q[0].client)..]) == Clients(q) - {q[0].client}
  {
    var rest := q[Lead(q, q[0].client)..];
    forall x | x in Clients(rest) ensures x in Clients(q) && x != q[0].client {
      LeftIsYounger(q, x);
    }
    forall x | x in Clients(q) && x != q[0].client ensures x in Clients(rest) {
      YoungerIsLeft(q, x);
    }
  }

  // What stays behind is a queue in the same order.
  lemma EvictedStaysSorted(q: seq<Tracked>, n: nat, tracker: nat)
    requires Sorted(q) && n <= |q| && forall t :: t in q ==> t.client < tracker
    ensures Sorted(q[n..]) && forall t :: t in q[n..] ==> t.client < tracker
  {
  }

  lemma ReshuffledOk(st: State, threshold: nat)
    requires QueueOk(st) && threshold > 0 && st.count <= threshold
    ensures QueueOk(Reshuffled(st, threshold)) && Reshuffled(st, threshold).count < threshold
    ensures Reshuffled(st, threshold).tracker == st.tracker
  {
    var q := st.queue;
    if q == [] {
      assert Clients(q) == {};
    } else if st.count >= threshold {
      var n := Lead(q, q[0].client);
      EvictsOldest(q);
      ClientIn(q, 0);
      EvictedStaysSorted(q, n, st.tracker);
      CutInTwo(st.evicted, q, n);
    }
  }

  lemma CutInTwo(e: seq<Tracked>, q: seq<Tracked>, n: nat)
    requires n <= |q|
    ensures e + q == (e + q[..n]) + q[n..]
  {
  }

  lemma ClientsConcat(a: seq<Tracked>, b: seq<Tracked>)
    ensures Clients(a + b) == Clients(a) + Clients(b)
  {
    assert forall t :: t in a + b <==> t in a || t in b;
  }

  lemma OpenedOk(st: State, handles: seq<int>)
    requires QueueOk(st)
    ensures var u := Opened(st, handles); QueueOk(u.(tracker := u.tracker + 1)) && u.count <= st.count + 1
  {
    var more := Entries(st.tracker, handles);
    assert (st.evicted + st.queue) + more == st.evicted + (st.queue + more);
    OneMoreClient(st.queue, st.tracker, handles);
    AppendedStaysSorted(st.queue, more, st.tracker);
  }

  lemma OneMoreClient(q: seq<Tracked>, tracker: nat, handles: seq<int>)
    requires forall t :: t in q ==> t.client < tracker
    ensures var more := Entries(tracker, handles);
      |Clients(q + more)| == |Clients(q)| + if more == [] then 0 else 1
  {
    var more := Entries(tracker, handles);
    OneClient(tracker, handles);
    ClientsConcat(q, more);
    if more == [] {
      assert Clients(q) + {} == Clients(q);
    } else {
      assert tracker !in Clients(q);
    }
  }

  lemma AppendedStaysSorted(q: seq<Tracked>, more: seq<Tracked>, tracker: nat)
    requires Sorted(q) && (forall t :: t in q ==> t.client < tracker) && forall t :: t in more ==> t.client == tracker
    ensures Sorted(q + more) && forall t :: t in q + more ==> t.client < tracker + 1
  {
    var s := q + more;
    forall i, j | 0 <= i < j < |s| ensures s[i].client <= s[j].client {
      assert i < |q| ==> s[i] in q;
      assert j >= |q| ==> s[j] in more;
      assert i >= |q| ==> s[i] in more;
    }
  }

  lemma OneClient(client: nat, handles: seq<int>)
    ensures Clients(Entries(client, handles)) == if Entries(client, handles) == [] then {} else {client}
  {
    var more := Entries(client, handles);
    if more != [] {
      assert more[0] in more;
    }
  }

  // After any events: the invariant holds, and no more clients are active than
  // the threshold allows.
  lemma {:induction false} RunOk(evs: seq<Event>, threshold: nat)
    requires threshold > 0
    ensures QueueOk(Run(evs, threshold)) && Run(evs, threshold).count <= threshold
  {
    if evs != [] {
      var st, ev := Run(evs[..|evs| - 1], threshold), evs[|evs| - 1];
      RunOk(evs[..|evs| - 1], threshold);
      if ev.Open? && ev.pid != -1 && ev.named && !ev.priority {
        ReshuffledOk(st, threshold);
        OpenedOk(Reshuffled(st, threshold), ev.handles);
      }
    }
  }

  // What was evicted is untuned, if it is a handle at all.
  function Untunes(evicted: seq<Tracked>): seq<int> {
    if evicted == [] then []
    else
      var last := evicted[|evicted| - 1].handle;
      Untunes(evicted[..|evicted| - 1]) + if last > 0 then [last] else []
  }

  lemma {:induction false} UntunesConcat(a: seq<Tracked>, b: seq<Tracked>)
    ensures Untunes(a + b) == Untunes(a) + Untunes(b)
  {
    if b == [] {
      assert a + b == a;
    } else {
      UntunesConcat(a, b[..|b| - 1]);
      assert (a + b)[..|a + b| - 1] == a + b[..|b| - 1];
    }
  }

  // Handles leave the queue in the order they came: the untunes sent, followed
  // by those the queue would still give rise to, are those of all handles ever
  // tracked, each once.
  lemma UntunedInOrder(evs: seq<Event>, threshold: nat)
    requires threshold > 0
    ensures var st := Run(evs, threshold); Untunes(st.pushed) == Untunes(st.evicted) + Untunes(st.queue)
  {
    var st := Run(evs, threshold);
    RunOk(evs, threshold);
    UntunesConcat(st.evicted, st.queue);
  }

  // ---- What is tracked, evicted and untuned ----

  // The positions of the handles that are positive, up to the k-th.
  ghost function Positive(e: seq<Tracked>, k: nat): set<nat>
    requires k <= |e|
  {
    set i: nat | i < k && e[i].handle > 0
  }

  // Of the evicted entries exactly those with a positive handle are untuned,
  // each once and in their order.
  lemma {:induction false} UntunesPositive(e: seq<Tracked>, k: nat)
    requires k < |e|
    ensures |Untunes(e)| == |Positive(e, |e|)|
    ensures e[k].handle > 0 ==>
              |Positive(e, k)| < |Untunes(e)| && Untunes(e)[|Positive(e, k)|] == e[k].handle
  {
    var n := |e| - 1;
    PositiveSteps(e, n, k);
    if n == 0 {
      assert Untunes(e[..0]) == [] && Positive(e, 0) == {};
    } else if k < n {
      UntunesPositive(e[..n], k);
    } else {
      UntunesPositive(e[..n], 0);
    }
  }

  lemma PositiveSteps(e: seq<Tracked>, n: nat, k: nat)
    requires k <= n < |e|
    ensures Positive(e, k) == Positive(e[..n], k)
    ensures |Positive(e, n + 1)| == |Positive(e, n)| + if e[n].handle > 0 then 1 else 0
    ensures Positive(e, n) == Positive(e[..n], n)
  {
    assert Positive(e, n + 1) == Positive(e, n) + if e[n].handle > 0 then {n} else {};
  }

  // The positions of the handles that are one, up to the k-th.
  ghost function Acquired(handles: seq<int>, k: nat): set<nat>
    requires k <= |handles|
  {
    set i: nat | i < k && handles[i] != -1
  }

  // Of the handles an application acquired all but -1 are tracked, each once, in
  // their order and under the client's number.
  lemma {:induction false} EntriesAcquired(client: nat, handles: seq<int>, k: nat)
    requires k < |handles|
    ensures |Entries(client, handles)| == |Acquired(handles, |handles|)|
    ensures handles[k] != -1 ==>
              && |Acquired(handles, k)| < |Entries(client, handles)|
              && Entries(client, handles)[|Acquired(handles, k)|] == Tracked(client, handles[k])
  {
    var n := |handles| - 1;
    AcquiredSteps(handles, n, k);
    if n == 0 {
      assert Entries(client, handles[..0]) == [] && Acquired(handles, 0) == {};
    } else if k < n {
      EntriesAcquired(client, handles[..n], k);
    } else {
      EntriesAcquired(client, handles[..n], 0);
    }
  }

  lemma AcquiredSteps(handles: seq<int>, n: nat, k: nat)
    requires k <= n < |handles|
    ensures Acquired(handles, k) == Acquired(handles[..n], k)
    ensures |Acquired(handles, n + 1)| == |Acquired(handles, n)| + if handles[n] != -1 then 1 else 0
    ensures Acquired(handles, n) == Acquired(handles[..n], n)
  {
    assert Acquired(handles, n + 1) == Acquired(handles, n) + if handles[n] != -1 then {n} else {};
  }

  // The start of an application that is known by name and has no priority.
  predicate StartsTracked(ev: Event) {
    ev.Open? && ev.pid != -1 && ev.named && !ev.priority
  }

  // Such an event, and no other, tracks what the application acquired, under a
  // number of its own; numbers go up with every start but those without a name.
  lemma StartTracks(evs: seq<Event>, ev: Event, threshold: nat)
    ensures var st, u := Run(evs, threshold), Run(evs + [ev], threshold);
      && u.pushed == st.pushed + (if StartsTracked(ev) then Entries(st.tracker, ev.handles) else [])
      && u.tracker == st.tracker + (if ev.Open? && (ev.pid == -1 || ev.named) then 1 else 0)
  {
    assert (evs + [ev])[..|evs + [ev]| - 1] == evs;
  }

  // Such an event, and no other, evicts, and only if as many clients have
  // tracked handles as the threshold says. It evicts all handles of the oldest
  // client, and nothing else.
  lemma EvictsAtThreshold(evs: seq<Event>, ev: Event, threshold: nat) returns (n: nat)
    requires threshold > 0
    ensures var st, u := Run(evs, threshold), Run(evs + [ev], threshold);
      && n <= |st.queue| && u.evicted == st.evicted + st.queue[..n]
      && (n > 0 <==> StartsTracked(ev) && |Clients(st.queue)| >= threshold)
      && (n > 0 ==> forall i :: 0 <= i < |st.queue| ==>
            && st.queue[0].client <= st.queue[i].client
            && (i < n <==> st.queue[i].client == st.queue[0].client))
  {
    assert (evs + [ev])[..|evs + [ev]| - 1] == evs;
    RunOk(evs, threshold);
    var st := Run(evs, threshold);
    var q := st.queue;
    if q == [] {
      assert Clients(q) == {};
    }
    if StartsTracked(ev) && st.count >= threshold {
      n := Lead(q, q[0].client);
      forall i | 0 <= i < |q| ensures i < n <==> q[i].client == q[0].client {
        LeadIsAll(q, i);
      }
    } else {
      n := 0;
      assert st.evicted + q[..0] == st.evicted;
    }
  }

  lemma LeadStep(q: seq<Tracked>, n: nat, c: nat)
    requires n < |q| && q[n].client == c
    ensures Lead(q[n..], c) == 1 + Lead(q[n + 1..], c)
  {
    assert q[n..][1..] == q[n + 1..];
  }

  // ---- The classifier itself ----

  class ContextualClassifier {
    var currRestuneHandles: seq<Tracked>
    var clientTracker: nat
    var activeClientCount: nat
    const activeAppThreshold: nat
    var isPriorityClient: bool
    var untuned: seq<int>
    ghost var pushed: seq<Tracked>
    ghost var evicted: seq<Tracked>

    ghost function View(): State
      reads this
    {
      State(currRestuneHandles, clientTracker, activeClientCount, pushed, evicted)
    }

    ghost predicate Valid()
      reads this
    {
      activeAppThreshold > 0 && untuned == Untunes(evicted)
    }

    constructor (multiApp: bool)
      ensures Valid() && View() == START && activeAppThreshold == if multiApp then 3 else 1
    {
      activeAppThreshold := if multiApp then 3 else 1;
      currRestuneHandles, clientTracker, activeClientCount, isPriorityClient := [], 0, 0, false;
      untuned, pushed, evicted := [], [], [];
    }

    // Priority clients are not tracked.
    method TrackClient(handle: int)
      requires Valid()
      modifies this`currRestuneHandles, this`pushed
      ensures Valid()
      ensures var more := if isPriorityClient || handle == -1 then [] else [Tracked(clientTracker, handle)];
        currRestuneHandles == old(currRestuneHandles) + more && pushed == old(pushed) + more
    {
      if isPriorityClient {
        return;
      }
      if handle != -1 {
        currRestuneHandles := currRestuneHandles + [Tracked(clientTracker, handle)];
        pushed := pushed + [Tracked(clientTracker, handle)];
      }
    }

    // Untunes the first handle of the queue and drops it.
    method PopFront(ghost before: seq<Tracked>, ghost q: seq<Tracked>, ghost n: nat)
      requires Valid() && n < |q| && currRestuneHandles == q[n..] && evicted == before + q[..n]
      modifies this`currRestuneHandles, this`untuned, this`evicted
      ensures Valid() && currRestuneHandles == q[n + 1..] && evicted == before + q[..n + 1]
    {
      var front := currRestuneHandles[0];
      if front.handle > 0 {
        untuned := untuned + [front.handle];
      }
      currRestuneHandles := currRestuneHandles[1..];
      assert (evicted + [front])[..|evicted|] == evicted;
      assert q[..n + 1] == q[..n] + [front];
      evicted := evicted + [front];
    }

    // Evicts as long as the front belongs to client c.
    method EvictLead(c: nat) returns (evictedClient: bool)
      requires Valid()
      modifies this`currRestuneHandles, this`untuned, this`evicted
      ensures Valid()
      ensures var q, n := old(currRestuneHandles), Lead(old(currRestuneHandles), c);
        currRestuneHandles == q[n..] && evicted == old(evicted) + q[..n] && (evictedClient <==> n > 0)
    {
      ghost var q, n := currRestuneHandles, 0;
      evictedClient := false;
      while currRestuneHandles != [] && currRestuneHandles[0].client == c
        invariant 0 <= n <= |q| && currRestuneHandles == q[n..] && evicted == old(evicted) + q[..n]
        invariant n + Lead(q[n..], c) == Lead(q, c)
        invariant Valid() && (evictedClient <==> n > 0)
        decreases |currRestuneHandles|
      {
        LeadStep(q, n, c);
        PopFront(old(evicted), q, n);
        evictedClient := true;
        n := n + 1;
      }
    }

    // When the threshold is reached, the oldest client has to go.
    method ReShuffle()
      requires Valid()
      modifies this`currRestuneHandles, this`activeClientCount, this`untuned, this`evicted
      ensures Valid() && View() == Reshuffled(old(View()), activeAppThreshold)
    {
      if currRestuneHandles == [] {
        activeClientCount := 0;
      } else if activeClientCount >= activeAppThreshold {
        var evictedClient := EvictLead(currRestuneHandles[0].client);
        if evictedClient && activeClientCount > 0 {
          activeClientCount := activeClientCount - 1;
        }
      }
    }

    // Tracks what the signals of one application acquired.
    method TrackAll(handles: seq<int>)
      requires Valid()
      modifies this`currRestuneHandles, this`pushed
      ensures Valid()
      ensures var more := if isPriorityClient then [] else Entries(clientTracker, handles);
        currRestuneHandles == old(currRestuneHandles) + more && pushed == old(pushed) + more
    {
      for i := 0 to |handles|
        invariant Valid()
        invariant var more := if isPriorityClient then [] else Entries(clientTracker, handles[..i]);
          currRestuneHandles == old(currRestuneHandles) + more && pushed == old(pushed) + more
      {
        TrackClient(handles[i]);
        assert handles[..i + 1][..i] == handles[..i];
      }
      assert handles[..|handles|] == handles;
    }

    // Makes room for an application without priority and tracks its handles.
    method OpenApplication(priority: bool, handles: seq<int>)
      requires Valid()
      modifies this
      ensures Valid() && isPriorityClient == priority
      ensures View() == if priority then old(View()) else Opened(Reshuffled(old(View()), activeAppThreshold), handles)
    {
      isPriorityClient := priority;
      if !isPriorityClient {
        ReShuffle();
      }
      var handlesBeforeClient := |currRestuneHandles|;
      TrackAll(handles);
      if |currRestuneHandles| > handlesBeforeClient {
        activeClientCount := activeClientCount + 1;
      }
    }

    method ProcessEvent(ev: Event)
      requires Valid()
      modifies this
      ensures Valid() && View() == Step(old(View()), ev, activeAppThreshold)
    {
      isPriorityClient := false;
      match ev
      case Open(pid, named, priority, handles) =>
        if pid != -1 {
          if !named {
            return;
          }
          OpenApplication(priority, handles);
        }
        clientTracker := clientTracker + 1;
      case Close(_) =>
    }
  }
}
