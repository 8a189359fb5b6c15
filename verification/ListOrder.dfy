// The order of one slot list. Every list-managed policy is an insertion "before
// the first element that the newcomer beats"; the four policies differ only in
// what beating means.

module ListOrder {
  import opened Types

  // Does a newly arrived x go in front of y, which is already in the list?
  predicate Beats(p: Policy, x: Item, y: Item) {
    match p
    case InstantApply => true
    case HigherBetter => x.res.ComparedValue() > y.res.ComparedValue()
    case LowerBetter => x.res.ComparedValue() < y.res.ComparedValue()
    case LazyApply => false
    case PassThrough => false
    case PassThroughAppend => false
  }

  // The comparison the policy hands to the list.
  function Comparator(p: Policy): DLPolicy {
    (x, y) => Beats(p, x, y)
  }

  // The index of the first element the comparator holds of, or the length.
  function FirstHold(s: seq<Item>, x: Item, cmp: DLPolicy): (k: nat)
    ensures k <= |s|
    ensures forall i :: 0 <= i < k ==> !cmp(x, s[i])
    ensures k < |s| ==> cmp(x, s[k])
  {
    if s == [] || cmp(x, s[0]) then 0 else 1 + FirstHold(s[1..], x, cmp)
  }

  function SpliceAt<T>(s: seq<T>, k: nat, x: T): (r: seq<T>)
    requires k <= |s|
    ensures |r| == |s| + 1 && r[k] == x
  {
    s[..k] + [x] + s[k..]
  }

  function Place(p: Policy, s: seq<Item>, x: Item): (r: seq<Item>) {
    if s == [] then [x]
    else if Beats(p, x, s[0]) then [x] + s
    else [s[0]] + Place(p, s[1..], x)
  }

  // Removes the first occurrence.
  function Without<T(==)>(s: seq<T>, x: T): (r: seq<T>) {
    if s == [] then [] else if s[0] == x then s[1..] else [s[0]] + Without(s[1..], x)
  }

  // The list of a slot as a function of its live entries in arrival order.
  function Arrange(p: Policy, arrivals: seq<Item>): seq<Item> {
    if arrivals == [] then []
    else Place(p, Arrange(p, arrivals[..|arrivals| - 1]), arrivals[|arrivals| - 1])
  }

  ghost predicate Ordered(p: Policy, s: seq<Item>) {
    forall i, j :: 0 <= i < j < |s| ==>
      match p
      case HigherBetter => s[i].res.ComparedValue() >= s[j].res.ComparedValue()
      case LowerBetter => s[i].res.ComparedValue() <= s[j].res.ComparedValue()
      case _ => true
  }

  // x occurs in s at an earlier index than y.
  ghost predicate Precedes(s: seq<Item>, x: Item, y: Item) {
    exists i, j :: 0 <= i < j < |s| && s[i] == x && s[j] == y
  }

  // ---- Place ----

  // Policy insertion is insertion at the first position where the comparator
  // holds, and at the end when it holds nowhere.
  lemma {:induction false} PlaceIsSplice(p: Policy, s: seq<Item>, x: Item)
    ensures Place(p, s, x) == SpliceAt(s, FirstHold(s, x, Comparator(p)), x)
  {
    if s == [] || Beats(p, x, s[0]) {
    } else {
      PlaceIsSplice(p, s[1..], x);
    }
  }

  lemma PlaceMembers(p: Policy, s: seq<Item>, x: Item)
    ensures |Place(p, s, x)| == |s| + 1
    ensures multiset(Place(p, s, x)) == multiset(s) + multiset{x}
    ensures forall y :: y in Place(p, s, x) <==> y in s || y == x
  {
    PlaceIsSplice(p, s, x);
    SpliceHolds(s, FirstHold(s, x, Comparator(p)), x);
  }

  lemma SpliceHolds(s: seq<Item>, k: nat, x: Item)
    requires k <= |s|
    ensures multiset(SpliceAt(s, k, x)) == multiset(s) + multiset{x}
    ensures forall y :: y in SpliceAt(s, k, x) <==> y in s || y == x
  {
    assert s == s[..k] + s[k..];
  }

  lemma NoDupIffMultiset(s: seq<Item>)
    ensures NoDup(s) <==> forall x :: x in multiset(s) ==> multiset(s)[x] == 1
  {
    if s == [] {
    } else {
      var t := s[..|s| - 1];
      var z := s[|s| - 1];
      assert s == t + [z];
      NoDupIffMultiset(t);
      if NoDup(s) {
        assert z !in t;
      } else if NoDup(t) {
        assert z in t;
        assert multiset(s)[z] == 2;
      } else {
        var x :| x in multiset(t) && multiset(t)[x] != 1;
        assert multiset(s)[x] != 1;
      }
    }
  }

  lemma PlaceNoDup(p: Policy, s: seq<Item>, x: Item)
    requires NoDup(s) && x !in s
    ensures NoDup(Place(p, s, x))
  {
    PlaceMembers(p, s, x);
    NoDupIffMultiset(s);
    NoDupIffMultiset(Place(p, s, x));
  }

  lemma {:induction false} PlaceOrdered(p: Policy, s: seq<Item>, x: Item)
    requires Ordered(p, s)
    ensures Ordered(p, Place(p, s, x))
  {
    PlaceIsSplice(p, s, x);
  }

  // ---- Without ----

  lemma {:induction false} WithoutAbsent<T>(s: seq<T>, x: T)
    requires x !in s
    ensures Without(s, x) == s
  {
    if s != [] {
      WithoutAbsent(s[1..], x);
    }
  }

  lemma WithoutMembers<T(!new)>(s: seq<T>, x: T)
    requires NoDup(s)
    ensures NoDup(Without(s, x))
    ensures forall y :: y in Without(s, x) <==> y in s && y != x
    ensures |Without(s, x)| == if x in s then |s| - 1 else |s|
  {
    if x in s {
      var k :| 0 <= k < |s| && s[k] == x;
      WithoutAt(s, k);
      var r := Without(s, x);
      assert forall i :: 0 <= i < |r| ==> r[i] == s[if i < k then i else i + 1];
      forall y | y in s && y != x ensures y in r {
        var i :| 0 <= i < |s| && s[i] == y;
        assert r[if i < k then i else i - 1] == y;
      }
    } else {
      WithoutAbsent(s, x);
    }
  }

  // Removal at a known index.
  lemma {:induction false} WithoutAt<T(!new)>(s: seq<T>, k: nat)
    requires NoDup(s) && k < |s|
    ensures Without(s, s[k]) == s[..k] + s[k + 1..]
  {
    if k == 0 {
    } else {
      assert s[0] != s[k];
      WithoutAt(s[1..], k - 1);
      assert s[1..][..k - 1] == s[1..k];
      assert s[1..][k..] == s[k + 1..];
      assert [s[0]] + s[1..k] == s[..k];
    }
  }

  lemma {:induction false} WithoutOrdered(p: Policy, s: seq<Item>, x: Item)
    requires Ordered(p, s)
    ensures Ordered(p, Without(s, x))
    ensures forall y :: y in Without(s, x) ==> y in s
  {
    if s == [] || s[0] == x {
    } else {
      WithoutOrdered(p, s[1..], x);
      var r := Without(s[1..], x);
      forall j | 0 <= j < |r| ensures r[j] in s[1..] {
      }
    }
  }

  // Removing what was just placed gives the list back.
  lemma {:induction false} PlaceThenWithout(p: Policy, s: seq<Item>, x: Item)
    requires x !in s
    ensures Without(Place(p, s, x), x) == s
  {
    if s == [] || Beats(p, x, s[0]) {
    } else {
      PlaceThenWithout(p, s[1..], x);
      assert Place(p, s, x)[1..] == Place(p, s[1..], x);
    }
  }

  // Removing an older entry commutes with placing a newer one. This needs the
  // list to be ordered: the entries behind x are beaten whenever x is.
  lemma {:induction false} WithoutPlaceCommute(p: Policy, s: seq<Item>, x: Item, n: Item)
    requires Ordered(p, s) && x != n
    ensures Without(Place(p, s, n), x) == Place(p, Without(s, x), n)
  {
    if s == [] {
    } else if Beats(p, n, s[0]) {
      assert Place(p, s, n)[1..] == s;
      if s[0] == x {
        if |s| > 1 {
          assert Beats(p, n, s[1]);
        }
      }
    } else if s[0] == x {
      assert Place(p, s, n)[1..] == Place(p, s[1..], n);
    } else {
      WithoutPlaceCommute(p, s[1..], x, n);
      assert Place(p, s, n)[1..] == Place(p, s[1..], n);
    }
  }

  // ---- Arrange ----

  lemma {:induction false} ArrangeMembers(p: Policy, a: seq<Item>)
    ensures |Arrange(p, a)| == |a|
    ensures multiset(Arrange(p, a)) == multiset(a)
    ensures forall y :: y in Arrange(p, a) <==> y in a
  {
    if a == [] {
    } else {
      var t, x := a[..|a| - 1], a[|a| - 1];
      ArrangeMembers(p, t);
      PlaceMembers(p, Arrange(p, t), x);
      assert a == t + [x];
    }
  }

  lemma {:induction false} ArrangeOrdered(p: Policy, a: seq<Item>)
    ensures Ordered(p, Arrange(p, a))
  {
    if a != [] {
      ArrangeOrdered(p, a[..|a| - 1]);
      PlaceOrdered(p, Arrange(p, a[..|a| - 1]), a[|a| - 1]);
    }
  }

  // The arrangement after a removal is the arrangement of the remaining
  // arrivals: the list has no memory of entries that are gone.
  lemma {:induction false} ArrangeWithout(p: Policy, a: seq<Item>, x: Item)
    requires NoDup(a)
    ensures Arrange(p, Without(a, x)) == Without(Arrange(p, a), x)
  {
    if a == [] {
    } else {
      var t, n := a[..|a| - 1], a[|a| - 1];
      assert a == t + [n];
      assert n !in t;
      ArrangeMembers(p, t);
      if n == x {
        WithoutAt(a, |a| - 1);
        assert Without(a, x) == t;
        PlaceThenWithout(p, Arrange(p, t), n);
      } else {
        ArrangeWithout(p, t, x);
        ArrangeOrdered(p, t);
        WithoutPlaceCommute(p, Arrange(p, t), x, n);
        WithoutAppend(t, n, x);
        assert Without(a, x) == Without(t, x) + [n];
        assert (Without(t, x) + [n])[..|Without(t, x)|] == Without(t, x);
      }
    }
  }

  lemma {:induction false} WithoutAppend<T>(t: seq<T>, n: T, x: T)
    requires n != x
    ensures Without(t + [n], x) == Without(t, x) + [n]
  {
    if t == [] {
      assert Without<T>([n][1..], x) == [];
    } else {
      assert (t + [n])[1..] == t[1..] + [n];
      WithoutAppend(t[1..], n, x);
    }
  }

  // Whether the i-th entry to arrive comes before the j-th, decided by the
  // policy, the compared values and the order of arrival alone.
  ghost predicate Outranks(p: Policy, x: Resource, i: nat, y: Resource, j: nat) {
    var v, w := x.ComparedValue(), y.ComparedValue();
    match p
    case InstantApply => i > j
    case HigherBetter => v > w || (v == w && i < j)
    case LowerBetter => v < w || (v == w && i < j)
    case _ => i < j
  }

  lemma PrecedesIndex(s: seq<Item>, i: nat, j: nat)
    requires NoDup(s) && i < |s| && j < |s|
    ensures Precedes(s, s[i], s[j]) <==> i < j
  {
  }

  lemma ArrangeAppend(p: Policy, a: seq<Item>, n: Item)
    ensures Arrange(p, a + [n]) == Place(p, Arrange(p, a), n)
  {
    assert (a + [n])[..|a|] == a;
  }

  // Placing n does not reorder the others, and puts n in front of exactly the
  // entries it beats.
  lemma PlacePrecedes(p: Policy, s: seq<Item>, n: Item, i: nat, j: nat)
    requires Ordered(p, s) && NoDup(s) && n !in s && i < |s| && j < |s|
    ensures Precedes(Place(p, s, n), s[i], s[j]) <==> i < j
    ensures Precedes(Place(p, s, n), n, s[i]) <==> Beats(p, n, s[i])
    ensures Precedes(Place(p, s, n), s[i], n) <==> !Beats(p, n, s[i])
  {
    PlaceIsSplice(p, s, n);
    PlaceNoDup(p, s, n);
    var k := FirstHold(s, n, Comparator(p));
    SplicePrecedes(s, k, n, i, j);
    assert k < |s| ==> Beats(p, n, s[k]);
    assert Beats(p, n, s[i]) <==> k <= i;
  }

  lemma SplicePrecedes(s: seq<Item>, k: nat, n: Item, i: nat, j: nat)
    requires k <= |s| && i < |s| && j < |s| && NoDup(SpliceAt(s, k, n))
    ensures Precedes(SpliceAt(s, k, n), s[i], s[j]) <==> i < j
    ensures Precedes(SpliceAt(s, k, n), n, s[i]) <==> k <= i
    ensures Precedes(SpliceAt(s, k, n), s[i], n) <==> i < k
  {
    var r := SpliceAt(s, k, n);
    var i', j' := if i < k then i else i + 1, if j < k then j else j + 1;
    assert r[i'] == s[i] && r[j'] == s[j] && r[k] == n;
    PrecedesIndex(r, i', j');
    PrecedesIndex(r, i', k);
    PrecedesIndex(r, k, i');
  }

  // The same with the entries named rather than indexed.
  lemma PlacePrecedesEntries(p: Policy, s: seq<Item>, n: Item, y: Item, z: Item)
    requires Ordered(p, s) && NoDup(s) && n !in s && y in s && z in s
    ensures Precedes(Place(p, s, n), y, z) <==> Precedes(s, y, z)
    ensures Precedes(Place(p, s, n), n, y) <==> Beats(p, n, y)
    ensures Precedes(Place(p, s, n), y, n) <==> !Beats(p, n, y)
  {
    var i :| 0 <= i < |s| && s[i] == y;
    var j :| 0 <= j < |s| && s[j] == z;
    PlacePrecedes(p, s, n, i, j);
    PrecedesIndex(s, i, j);
  }

  lemma ArrangeNoDup(p: Policy, a: seq<Item>)
    requires NoDup(a)
    ensures NoDup(Arrange(p, a))
  {
    ArrangeMembers(p, a);
    NoDupIffMultiset(a);
    NoDupIffMultiset(Arrange(p, a));
  }

  lemma ArrangeReady(p: Policy, a: seq<Item>, i: nat)
    requires NoDup(a) && i < |a| - 1
    ensures var q, n := Arrange(p, a[..|a| - 1]), a[|a| - 1];
      Ordered(p, q) && NoDup(q) && n !in q && a[i] in q && Arrange(p, a) == Place(p, q, n)
    ensures NoDup(a[..|a| - 1])
  {
    var t, n := a[..|a| - 1], a[|a| - 1];
    ArrangeOrdered(p, t);
    ArrangeNoDup(p, t);
    ArrangeMembers(p, t);
    assert n !in t;
    assert t[i] in t;
  }

  // The last entry to arrive does not reorder the others.
  lemma OlderAmongThemselves(p: Policy, a: seq<Item>, i: nat, j: nat)
    requires NoDup(a) && i < |a| - 1 && j < |a| - 1
    ensures Precedes(Arrange(p, a), a[i], a[j]) <==> Precedes(Arrange(p, a[..|a| - 1]), a[i], a[j])
  {
    ArrangeReady(p, a, i);
    ArrangeReady(p, a, j);
    PlacePrecedesEntries(p, Arrange(p, a[..|a| - 1]), a[|a| - 1], a[i], a[j]);
  }

  // It comes before those it beats.
  lemma NewestAgainst(p: Policy, a: seq<Item>, i: nat)
    requires NoDup(a) && i < |a| - 1
    ensures var n := a[|a| - 1];
      && (Precedes(Arrange(p, a), n, a[i]) <==> Beats(p, n, a[i]))
      && (Precedes(Arrange(p, a), a[i], n) <==> !Beats(p, n, a[i]))
  {
    ArrangeReady(p, a, i);
    PlacePrecedesEntries(p, Arrange(p, a[..|a| - 1]), a[|a| - 1], a[i], a[i]);
  }

  lemma BeatsOlder(p: Policy, x: Item, i: nat, n: Item, k: nat)
    requires i < k
    ensures Beats(p, n, x) <==> Outranks(p, n.res, k, x.res, i)
    ensures !Beats(p, n, x) <==> Outranks(p, x.res, i, n.res, k)
  {
  }

  // The complete order of every list: Arrange puts a[i] before a[j] exactly
  // when the policy says so. HIGHER_BETTER and LOWER_BETTER are sorted and
  // stable, LAZY_APPLY is first-in-first-out, INSTANT_APPLY last-in-first-out.
  lemma {:induction false} ArrangePrecedes(p: Policy, a: seq<Item>, i: nat, j: nat)
    requires NoDup(a) && i < |a| && j < |a| && i != j
    ensures Precedes(Arrange(p, a), a[i], a[j]) <==> Outranks(p, a[i].res, i, a[j].res, j)
  {
    var k := |a| - 1;
    if i < k && j < k {
      OlderAmongThemselves(p, a, i, j);
      ArrangePrecedes(p, a[..k], i, j);
    } else {
      var older := if i < k then i else j;
      NewestAgainst(p, a, older);
      BeatsOlder(p, a[older], older, a[k], k);
    }
  }

  // In the values a client writes: of a single-valued entry its only value
  // counts, of any other its second one. Larger ones come first under
  // HIGHER_BETTER and smaller ones under LOWER_BETTER, equal ones as they arrived.
  lemma ValuesDecide(a: seq<Item>, i: nat, j: nat)
    requires NoDup(a) && i < |a| && j < |a| && i != j && a[i].res.values != [] && a[j].res.values != []
    ensures var x, y := a[i].res.values, a[j].res.values;
      var v, w := if |x| == 1 then x[0] else x[1], if |y| == 1 then y[0] else y[1];
      && (Precedes(Arrange(HigherBetter, a), a[i], a[j]) <==> v > w || (v == w && i < j))
      && (Precedes(Arrange(LowerBetter, a), a[i], a[j]) <==> v < w || (v == w && i < j))
  {
    ArrangePrecedes(HigherBetter, a, i, j);
    ArrangePrecedes(LowerBetter, a, i, j);
  }
}
