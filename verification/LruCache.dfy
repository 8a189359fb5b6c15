// The small cache of handles whose untune arrived before their tune. It keeps a
// set for lookups and a queue for the order of insertion.

module LruCaches {
  import opened Types

  // The size of a cache unless its owner asks for another.
  const DEFAULT_CACHE_SIZE := 30

  datatype Lru = Lru(maxSize: nat, data: set<int>, queue: seq<int>)

  // Everything that can be looked up is still queued.
  ghost predicate Contained(c: Lru) {
    c.maxSize > 0 && forall x :: x in c.data ==> x in c.queue
  }

  predicate Popping(c: Lru) {
    |c.data| >= c.maxSize
  }

  function InsertValue(c: Lru, x: int): Lru
    requires Popping(c) ==> c.queue != []
  {
    if Popping(c) then Lru(c.maxSize, c.data - {c.queue[0]} + {x}, c.queue[1..] + [x])
    else Lru(c.maxSize, c.data + {x}, c.queue + [x])
  }

  class MinLRUCache {
    const maxSize: nat
    var dataSet: set<int>
    var recencyQueue: seq<int>

    ghost function View(): Lru
      reads this
    {
      Lru(maxSize, dataSet, recencyQueue)
    }

    constructor (maxSize: nat)
      requires maxSize > 0
      ensures View() == Lru(maxSize, {}, []) && Contained(View())
    {
      this.maxSize := maxSize;
      dataSet, recencyQueue := {}, [];
    }

    method Insert(data: int)
      requires Contained(View())
      modifies this
      ensures Contained(View())
      ensures Popping(old(View())) ==> old(recencyQueue) != []
      ensures View() == InsertValue(old(View()), data)
    {
      ContainedInsert(View(), data);
      if |dataSet| >= maxSize {
        var oldest := recencyQueue[0];
        recencyQueue := recencyQueue[1..];
        dataSet := dataSet - {oldest};
      }
      dataSet := dataSet + {data};
      recencyQueue := recencyQueue + [data];
    }

    method IsPresent(data: int) returns (r: bool)
      ensures r <==> data in View().data
    {
      r := data in dataSet;
    }
  }

  lemma ContainedInsert(c: Lru, x: int)
    requires Contained(c)
    ensures Popping(c) ==> c.queue != []
    ensures Contained(InsertValue(c, x))
  {
    if Popping(c) {
      SetNoLargerThanSeq(c.data, c.queue);
    }
    var r := InsertValue(c, x);
    forall y | y in r.data ensures y in r.queue {
      if y == x {
        assert r.queue[|r.queue| - 1] == x;
      } else {
        assert y in c.queue;
        var i :| 0 <= i < |c.queue| && c.queue[i] == y;
        if Popping(c) {
          assert i > 0;
          assert r.queue[i - 1] == y;
        } else {
          assert r.queue[i] == y;
        }
      }
    }
  }

  ghost function InsertAllValues(c: Lru, xs: seq<int>): (r: Lru)
    requires Contained(c)
    ensures Contained(r) && r.maxSize == c.maxSize
  {
    if xs == [] then c
    else
      var m := InsertAllValues(c, xs[..|xs| - 1]);
      ContainedInsert(m, xs[|xs| - 1]);
      InsertValue(m, xs[|xs| - 1])
  }

  lemma {:induction false} SetNoLargerThanSeq(s: set<int>, q: seq<int>)
    requires forall x :: x in s ==> x in q
    ensures |s| <= |q|
  {
    if q == [] {
      assert forall x :: x !in s;
      assert s == {};
    } else {
      var t := q[..|q| - 1];
      assert q == t + [q[|q| - 1]];
      SetNoLargerThanSeq(s - {q[|q| - 1]}, t);
    }
  }

  // x can be looked up, and exactly k values are queued behind its first place.
  ghost predicate QueuedBefore(c: Lru, x: int, i: nat, k: nat) {
    x in c.data && i < |c.queue| && c.queue[i] == x && x !in c.queue[..i] && |c.queue| - i - 1 == k
  }

  lemma WindowStep(c: Lru, x: int, i: nat, k: nat, y: int) returns (j: nat)
    requires Contained(c) && QueuedBefore(c, x, i, k) && k + 1 < c.maxSize
    ensures Popping(c) ==> c.queue != []
    ensures QueuedBefore(InsertValue(c, y), x, j, k + 1)
  {
    ContainedInsert(c, y);
    var r := InsertValue(c, y);
    if Popping(c) {
      SetNoLargerThanSeq(c.data, c.queue);
      assert i > 0;
      assert c.queue[0] in c.queue[..i];
      j := i - 1;
      assert r.queue[..j] == c.queue[1..i];
    } else {
      j := i;
      assert r.queue[..j] == c.queue[..i];
    }
  }

  // A value that was not queued when it was inserted is still present after any
  // maxSize - 1 further insertions, of whatever values.
  lemma Window(c: Lru, x: int, xs: seq<int>)
    requires Contained(c) && x !in c.queue && |xs| < c.maxSize
    ensures Popping(c) ==> c.queue != []
    ensures Contained(InsertValue(c, x)) && x in InsertAllValues(InsertValue(c, x), xs).data
  {
    var j := WindowPlace(c, x, xs);
  }

  lemma {:induction false} WindowPlace(c: Lru, x: int, xs: seq<int>) returns (j: nat)
    requires Contained(c) && x !in c.queue && |xs| < c.maxSize
    ensures Popping(c) ==> c.queue != []
    ensures Contained(InsertValue(c, x)) && QueuedBefore(InsertAllValues(InsertValue(c, x), xs), x, j, |xs|)
  {
    ContainedInsert(c, x);
    var r := InsertValue(c, x);
    if xs == [] {
      j := |r.queue| - 1;
      assert forall z :: z in r.queue[..j] ==> z in c.queue;
    } else {
      var i := WindowPlace(c, x, xs[..|xs| - 1]);
      j := WindowStep(InsertAllValues(r, xs[..|xs| - 1]), x, i, |xs| - 1, xs[|xs| - 1]);
    }
  }

  function LastOf(xs: seq<int>, n: nat): seq<int> {
    if |xs| <= n then xs else xs[|xs| - n..]
  }

  // The set and the queue hold the same values, each queued once.
  ghost predicate Exact(c: Lru) {
    && NoDup(c.queue)
    && (forall x :: x in c.data ==> x in c.queue)
    && (forall x :: x in c.queue ==> x in c.data)
  }

  lemma {:induction false} DistinctCount(s: set<int>, q: seq<int>)
    requires NoDup(q) && (forall x :: x in s ==> x in q) && (forall x :: x in q ==> x in s)
    ensures |s| == |q|
  {
    if q == [] {
      assert forall x :: x !in s;
      assert s == {};
    } else {
      var t, x := q[..|q| - 1], q[|q| - 1];
      assert q == t + [x];
      DistinctCount(s - {x}, t);
    }
  }

  // Inserting x leaves no trace of x twice.
  predicate Renews(c: Lru, x: int) {
    x !in c.data || (Popping(c) && c.queue != [] && x == c.queue[0])
  }

  // Set and queue go on agreeing exactly if the value is absent, or is the one
  // that has to make room.
  lemma ExactIff(c: Lru, x: int)
    requires Exact(c) && (Popping(c) ==> c.queue != [])
    ensures Exact(InsertValue(c, x)) <==> Renews(c, x)
  {
    var q := if Popping(c) then c.queue[1..] else c.queue;
    if Popping(c) {
      assert c.queue == [c.queue[0]] + q;
    }
    assert NoDup(q + [x]) <==> x !in q by {
      NoDupMore(q, x);
    }
  }

  lemma NoDupMore(q: seq<int>, x: int)
    requires NoDup(q)
    ensures NoDup(q + [x]) <==> x !in q
  {
    var r := q + [x];
    assert r[|q|] == x;
    if x in q {
      var i :| 0 <= i < |q| && q[i] == x;
      assert r[i] == r[|q|];
    }
  }

  // The cache after the first i of the values.
  ghost function After(maxSize: nat, xs: seq<int>, i: nat): Lru
    requires maxSize > 0 && i <= |xs|
  {
    InsertAllValues(Lru(maxSize, {}, []), xs[..i])
  }

  // No value comes again before n - 1 others have come in between.
  ghost predicate SpreadOut(n: nat, xs: seq<int>) {
    forall i, j :: 0 <= i < j < |xs| && j - i < n ==> xs[i] != xs[j]
  }

  ghost predicate Keeps(c: Lru, xs: seq<int>) {
    Exact(c) && c.queue == LastOf(xs, c.maxSize)
  }

  lemma InsertMore(c: Lru, t: seq<int>, x: int)
    requires Contained(c)
    ensures var m := InsertAllValues(c, t);
      (Popping(m) ==> m.queue != []) && InsertAllValues(c, t + [x]) == InsertValue(m, x)
  {
    ContainedInsert(InsertAllValues(c, t), x);
    assert (t + [x])[..|t|] == t;
  }

  lemma LastOfMore(t: seq<int>, x: int, n: nat)
    requires n > 0
    ensures LastOf(t + [x], n) == (if |t| < n then t else LastOf(t, n)[1..]) + [x]
  {
  }

  // Then the cache holds exactly the last maxSize values.
  lemma {:induction false} SpreadOutKeepsLast(maxSize: nat, xs: seq<int>)
    requires maxSize > 0 && SpreadOut(maxSize, xs)
    ensures Keeps(InsertAllValues(Lru(maxSize, {}, []), xs), xs)
  {
    if xs != [] {
      var t, x := xs[..|xs| - 1], xs[|xs| - 1];
      var m := InsertAllValues(Lru(maxSize, {}, []), t);
      assert xs == t + [x];
      SpreadOutKeepsLast(maxSize, t);
      RenewsIff(m, t, x);
      KeepsOneMore(m, t, x);
      InsertMore(Lru(maxSize, {}, []), t, x);
    }
  }

  lemma KeepsOneMore(m: Lru, t: seq<int>, x: int)
    requires m.maxSize > 0 && Keeps(m, t) && Renews(m, x)
    ensures Popping(m) ==> m.queue != []
    ensures Keeps(InsertValue(m, x), t + [x])
  {
    DistinctCount(m.data, m.queue);
    ExactIff(m, x);
    LastOfMore(t, x, m.maxSize);
  }

  lemma SpreadOutMore(n: nat, t: seq<int>, x: int)
    requires n > 0 && SpreadOut(n, t)
    ensures SpreadOut(n, t + [x]) <==> x !in LastOf(t, n - 1)
  {
    var xs, last := t + [x], LastOf(t, n - 1);
    if x in last {
      var i :| 0 <= i < |last| && last[i] == x;
      assert xs[|t| - |last| + i] == xs[|t|];
    } else {
      forall i | 0 <= i < |t| && |t| - i < n ensures t[i] != x {
        assert last[i - (|t| - |last|)] == t[i];
      }
    }
  }

  lemma RenewsIff(m: Lru, t: seq<int>, x: int)
    requires m.maxSize > 0 && Keeps(m, t) && SpreadOut(m.maxSize, t)
    ensures Renews(m, x) <==> SpreadOut(m.maxSize, t + [x])
  {
    DistinctCount(m.data, m.queue);
    SpreadOutMore(m.maxSize, t, x);
    if Popping(m) {
      AllButFirst(m.queue, x);
      assert m.queue[1..] == LastOf(t, m.maxSize - 1);
    }
  }

  lemma AllButFirst(q: seq<int>, x: int)
    requires NoDup(q) && q != []
    ensures x in q[1..] <==> x in q && x != q[0]
  {
    assert q == [q[0]] + q[1..];
  }

  lemma AfterPrefix(maxSize: nat, t: seq<int>, x: int, i: nat)
    requires maxSize > 0 && i <= |t|
    ensures After(maxSize, t + [x], i) == After(maxSize, t, i)
  {
    assert (t + [x])[..i] == t[..i];
  }

  lemma AfterAll(maxSize: nat, t: seq<int>, x: int)
    requires maxSize > 0
    ensures var m := After(maxSize, t, |t|);
      && m == InsertAllValues(Lru(maxSize, {}, []), t)
      && (Popping(m) ==> m.queue != []) && After(maxSize, t + [x], |t| + 1) == InsertValue(m, x)
  {
    assert t[..|t|] == t && (t + [x])[..|t| + 1] == t + [x];
    InsertMore(Lru(maxSize, {}, []), t, x);
  }

  ghost predicate ExactThroughout(maxSize: nat, xs: seq<int>)
    requires maxSize > 0
  {
    forall i :: 0 <= i <= |xs| ==> Exact(After(maxSize, xs, i))
  }

  lemma ExactThroughoutMore(maxSize: nat, t: seq<int>, x: int)
    requires maxSize > 0
    ensures ExactThroughout(maxSize, t + [x])
       <==> ExactThroughout(maxSize, t) && Exact(After(maxSize, t + [x], |t| + 1))
  {
    forall i | 0 <= i <= |t| ensures After(maxSize, t + [x], i) == After(maxSize, t, i) {
      AfterPrefix(maxSize, t, x, i);
    }
  }

  // Set and queue agree throughout exactly if no value comes again too soon.
  lemma {:induction false} ExactRunIff(maxSize: nat, xs: seq<int>)
    requires maxSize > 0
    ensures ExactThroughout(maxSize, xs) <==> SpreadOut(maxSize, xs)
  {
    if xs != [] {
      var t, x := xs[..|xs| - 1], xs[|xs| - 1];
      assert xs == t + [x];
      ExactRunIff(maxSize, t);
      ExactThroughoutMore(maxSize, t, x);
      if SpreadOut(maxSize, t) {
        var m := After(maxSize, t, |t|);
        AfterAll(maxSize, t, x);
        SpreadOutKeepsLast(maxSize, t);
        ExactIff(m, x);
        RenewsIff(m, t, x);
      } else {
        NotSpreadOut(maxSize, t, x);
      }
    }
  }

  lemma NotSpreadOut(n: nat, t: seq<int>, x: int)
    requires !SpreadOut(n, t)
    ensures !SpreadOut(n, t + [x])
  {
    var i, j :| 0 <= i < j < |t| && j - i < n && t[i] == t[j];
    assert (t + [x])[i] == (t + [x])[j];
  }

  ghost predicate Fits(c: Lru) {
    |c.data| <= c.maxSize
  }

  // The cache is full, but the oldest queued value has already left the set.
  predicate Outgrows(c: Lru, x: int) {
    Popping(c) && c.queue != [] && c.queue[0] !in c.data && x !in c.data
  }

  lemma FitsIff(c: Lru, x: int)
    requires Contained(c) && Fits(c)
    ensures Popping(c) ==> c.queue != []
    ensures Fits(InsertValue(c, x)) <==> !Outgrows(c, x)
  {
    ContainedInsert(c, x);
    if Popping(c) && c.queue[0] in c.data {
      assert |c.data - {c.queue[0]}| == |c.data| - 1;
    } else if Popping(c) {
      assert c.data - {c.queue[0]} == c.data;
    }
  }

  ghost predicate FitsThroughout(maxSize: nat, xs: seq<int>)
    requires maxSize > 0
  {
    forall i :: 0 <= i <= |xs| ==> Fits(After(maxSize, xs, i))
  }

  ghost predicate NeverOutgrown(maxSize: nat, xs: seq<int>)
    requires maxSize > 0
  {
    forall i :: 0 <= i < |xs| ==> !Outgrows(After(maxSize, xs, i), xs[i])
  }

  lemma ThroughoutMore(maxSize: nat, t: seq<int>, x: int)
    requires maxSize > 0
    ensures FitsThroughout(maxSize, t + [x]) <==> FitsThroughout(maxSize, t) && Fits(After(maxSize, t + [x], |t| + 1))
    ensures NeverOutgrown(maxSize, t + [x]) <==> NeverOutgrown(maxSize, t) && !Outgrows(After(maxSize, t, |t|), x)
  {
    forall i | 0 <= i <= |t| ensures After(maxSize, t + [x], i) == After(maxSize, t, i) {
      AfterPrefix(maxSize, t, x, i);
    }
    assert forall i :: 0 <= i < |t| ==> (t + [x])[i] == t[i];
    assert (t + [x])[|t|] == x;
  }

  // The set keeps within its size throughout exactly if it is never outgrown.
  lemma {:induction false} FitsRunIff(maxSize: nat, xs: seq<int>)
    requires maxSize > 0
    ensures FitsThroughout(maxSize, xs) <==> NeverOutgrown(maxSize, xs)
  {
    if xs != [] {
      var t, x := xs[..|xs| - 1], xs[|xs| - 1];
      assert xs == t + [x];
      FitsRunIff(maxSize, t);
      ThroughoutMore(maxSize, t, x);
      AfterAll(maxSize, t, x);
      if FitsThroughout(maxSize, t) {
        assert Fits(After(maxSize, t, |t|));
        FitsIff(After(maxSize, t, |t|), x);
      }
    }
  }

  function ValuesOf(xs: seq<int>): set<int> {
    set x | x in xs
  }

  lemma {:induction false} InsertConcat(c: Lru, a: seq<int>, b: seq<int>)
    requires Contained(c)
    ensures InsertAllValues(c, a + b) == InsertAllValues(InsertAllValues(c, a), b)
  {
    if b == [] {
      assert a + b == a;
    } else {
      var t, x := b[..|b| - 1], b[|b| - 1];
      InsertConcat(c, a, t);
      InsertMore(c, a + t, x);
      InsertMore(InsertAllValues(c, a), t, x);
      assert b == t + [x] && a + b == a + t + [x];
    }
  }

  lemma OneMoreValue(data: set<int>, queue: seq<int>, t: seq<int>, y: int)
    ensures ValuesOf(t + [y]) == ValuesOf(t) + {y} && data + ValuesOf(t) + {y} == data + ValuesOf(t + [y])
    ensures queue + t + [y] == queue + (t + [y])
    ensures |ValuesOf(t + [y])| <= |ValuesOf(t)| + 1 && |data + ValuesOf(t)| <= |data| + |ValuesOf(t)|
  {
    assert ValuesOf(t + [y]) == ValuesOf(t) + {y};
  }

  lemma NotPoppedNext(m: Lru, t: seq<int>, y: int)
    requires Contained(m) && |m.data| + |t| < m.maxSize && |ValuesOf(t)| <= |t|
    requires InsertAllValues(m, t) == Lru(m.maxSize, m.data + ValuesOf(t), m.queue + t)
    ensures InsertAllValues(m, t + [y]) == Lru(m.maxSize, m.data + ValuesOf(t + [y]), m.queue + (t + [y]))
    ensures |ValuesOf(t + [y])| <= |t| + 1
  {
    InsertMore(m, t, y);
    OneMoreValue(m.data, m.queue, t, y);
  }

  // As long as the cache is not full, nothing is popped.
  lemma {:induction false} NonePopped(m: Lru, ys: seq<int>)
    requires Contained(m) && |m.data| + |ys| <= m.maxSize
    ensures InsertAllValues(m, ys) == Lru(m.maxSize, m.data + ValuesOf(ys), m.queue + ys)
    ensures |ValuesOf(ys)| <= |ys|
  {
    if ys == [] {
      assert m.queue + ys == m.queue && m.data + ValuesOf(ys) == m.data;
    } else {
      var t, y := ys[..|ys| - 1], ys[|ys| - 1];
      NonePopped(m, t);
      NotPoppedNext(m, t, y);
      assert ys == t + [y];
    }
  }

  lemma CountOf(xs: seq<int>)
    requires NoDup(xs)
    ensures |ValuesOf(xs)| == |xs|
  {
    DistinctCount(ValuesOf(xs), xs);
  }

  // x was inserted twice in a row, then values that fill the cache.
  lemma TwiceThenFull(n: nat, x: int, few: seq<int>, twice: Lru)
    requires n > 1 && |few| == n - 1 && NoDup(few) && x !in few
    requires twice == InsertValue(InsertValue(Lru(n, {}, []), x), x)
    ensures Contained(twice)
    ensures var m := InsertAllValues(twice, few);
      m.data == {x} + ValuesOf(few) && |m.data| == n && |m.queue| == n + 1 && m.queue[0] == m.queue[1] == x
  {
    assert twice == Lru(n, {x}, [x, x]);
    NonePopped(twice, few);
    CountOf(few);
    assert x !in ValuesOf(few);
  }

  lemma InsertTwo(c: Lru, x: int, y: int)
    requires Contained(c)
    ensures (Popping(c) ==> c.queue != []) && (Popping(InsertValue(c, x)) ==> InsertValue(c, x).queue != [])
    ensures InsertAllValues(c, [x, y]) == InsertValue(InsertValue(c, x), y)
  {
    LastTwo(c, [], x, y);
    assert [] + [x] + [y] == [x, y];
  }

  lemma TwiceThenMore(n: nat, x: int, few: seq<int>, y: int, z: int, ys: seq<int>, twice: Lru)
    requires ys == few + [y] + [z] && n > 1 && |few| == n - 1 && NoDup(few) && x !in few && y !in few && x != y
         && x != z
    requires twice == InsertValue(InsertValue(Lru(n, {}, []), x), x)
    ensures Contained(twice) && InsertAllValues(twice, ys).data == ValuesOf(ys)
  {
    TwiceThenFull(n, x, few, twice);
    LastTwo(twice, few, y, z);
    StalePopped(InsertAllValues(twice, few), x, few, y, z);
  }

  lemma TwiceThenAll(n: nat, x: int, ys: seq<int>, twice: Lru)
    requires n > 1 && |ys| == n + 1 && NoDup(ys) && x !in ys
    requires twice == InsertValue(InsertValue(Lru(n, {}, []), x), x)
    ensures Contained(twice) && InsertAllValues(twice, ys).data == ValuesOf(ys)
  {
    TwiceThenMore(n, x, ys[..n - 1], ys[n - 1], ys[n], ys, twice);
  }

  // Any value inserted twice in a row, and then maxSize + 1 other values, make
  // the set larger than its size.
  lemma TwiceOutgrows(n: nat, x: int, two: seq<int>, ys: seq<int>)
    requires n > 1 && two == [x, x] && |ys| == n + 1 && NoDup(ys) && x !in ys
    ensures InsertAllValues(Lru(n, {}, []), two + ys).data == ValuesOf(ys) && |ValuesOf(ys)| == n + 1
  {
    var c := Lru(n, {}, []);
    InsertTwo(c, x, x);
    TwiceThenAll(n, x, ys, InsertAllValues(c, two));
    InsertConcat(c, two, ys);
    CountOf(ys);
  }

  // x is popped twice, the second time without leaving the set.
  lemma StalePopped(m: Lru, x: int, few: seq<int>, y: int, z: int)
    requires y !in few && x !in few && x != y && x != z
    requires m.data == {x} + ValuesOf(few) && |m.data| == m.maxSize > 1
    requires |m.queue| == m.maxSize + 1 && m.queue[0] == m.queue[1] == x
    ensures InsertValue(InsertValue(m, y), z).data == ValuesOf(few + [y] + [z])
  {
    var r := InsertValue(m, y);
    assert m.data - {x} == ValuesOf(few);
    assert |ValuesOf(few) + {y}| == |m.data|;
    assert ValuesOf(few + [y] + [z]) == ValuesOf(few) + {y} + {z};
    assert x !in r.data;
  }

  lemma LastTwo(c: Lru, t: seq<int>, y: int, z: int)
    requires Contained(c)
    ensures var m := InsertAllValues(c, t);
      && (Popping(m) ==> m.queue != []) && (Popping(InsertValue(m, y)) ==> InsertValue(m, y).queue != [])
      && InsertAllValues(c, t + [y] + [z]) == InsertValue(InsertValue(m, y), z)
  {
    InsertMore(c, t, y);
    InsertMore(c, t + [y], z);
  }
}
