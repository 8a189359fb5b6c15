// The registry of signals: under each (code, type) one plain configuration and
// a list of variants told apart by four attributes, the search for the best
// variant, and the count of all that is registered.

module SignalRegistries {
  import opened Types

  const ATTRS := 4

  class SignalInfo {
    const category: UInt8
    const id: UInt16
    const sigType: UInt32
    const attrs: seq<UInt32>
    const hasExtraAttrs: bool
    var next: SignalInfo?

    constructor (category: UInt8, id: UInt16, sigType: UInt32, attrs: seq<UInt32>, hasExtraAttrs: bool)
      requires |attrs| == ATTRS
      ensures this.category == category && this.id == id && this.sigType == sigType
      ensures this.attrs == attrs && this.hasExtraAttrs == hasExtraAttrs && next == null
    {
      this.category, this.id, this.sigType := category, id, sigType;
      this.attrs, this.hasExtraAttrs := attrs, hasExtraAttrs;
      next := null;
    }

    function Code(): int {
      id + category * 65536
    }

    function Key(): int {
      KeyOf(Code(), sigType)
    }
  }

  function KeyOf(code: int, sigType: int): int {
    code * 0x1_0000_0000 + sigType
  }

  // Signals share a key only if they agree on category, id and type.
  lemma KeysDiffer(a: SignalInfo, b: SignalInfo)
    ensures a.Key() == b.Key() <==> a.category == b.category && a.id == b.id && a.sigType == b.sigType
  {
    assert a.Key() / 0x1_0000_0000 == a.Code() && b.Key() / 0x1_0000_0000 == b.Code();
    assert a.Code() / 65536 == a.category && b.Code() / 65536 == b.category;
  }

  // ---- Scores ----

  // How many attributes count when numArgs are given.
  function Considered(numArgs: int): int {
    if numArgs < ATTRS then numArgs else ATTRS
  }

  // The first n attributes that are equal.
  function ExactScore(c: seq<UInt32>, given: seq<UInt32>, n: int): (r: int)
    requires n <= |c| && n <= |given|
    ensures 0 <= r && (n >= 0 ==> r <= n)
    ensures n >= 0 && r == n <==> n >= 0 && c[..n] == given[..n]
  {
    if n <= 0 then 0 else ExactScore(c, given, n - 1) + if c[n - 1] == given[n - 1] then 1 else 0
  }

  // Within a fifth of what is given.
  predicate Near(c: int, given: int) {
    given * 80 <= c * 100 <= given * 120
  }

  // The first n attributes that are near.
  function NearScore(c: seq<UInt32>, given: seq<UInt32>, n: int): (r: int)
    requires n <= |c| && n <= |given|
    ensures ExactScore(c, given, n) <= r && (n >= 0 ==> r <= n)
  {
    if n <= 0 then 0 else NearScore(c, given, n - 1) + if Near(c[n - 1], given[n - 1]) then 1 else 0
  }

  // The distance is a fifth of what is given at most.
  predicate WithinFifth(c: int, given: int) {
    5 * (c - given) <= given && 5 * (given - c) <= given
  }

  lemma NearIsWithinFifth(c: int, given: int)
    ensures Near(c, given) <==> WithinFifth(c, given)
  {
  }

  // The places where c is what is given, and where it is near.
  ghost function Hits(c: seq<UInt32>, given: seq<UInt32>, n: int): set<int>
    requires n <= |c| && n <= |given|
  {
    set i | 0 <= i < n && c[i] == given[i]
  }

  ghost function NearHits(c: seq<UInt32>, given: seq<UInt32>, n: int): set<int>
    requires n <= |c| && n <= |given|
  {
    set i | 0 <= i < n && WithinFifth(c[i], given[i])
  }

  // The scores count these places.
  lemma {:induction false} ExactCounts(c: seq<UInt32>, given: seq<UInt32>, n: int)
    requires n <= |c| && n <= |given|
    ensures ExactScore(c, given, n) == |Hits(c, given, n)|
  {
    if n <= 0 {
      assert Hits(c, given, n) == {};
    } else {
      ExactCounts(c, given, n - 1);
      assert Hits(c, given, n) == Hits(c, given, n - 1) + if c[n - 1] == given[n - 1] then {n - 1} else {};
    }
  }

  lemma {:induction false} NearCounts(c: seq<UInt32>, given: seq<UInt32>, n: int)
    requires n <= |c| && n <= |given|
    ensures NearScore(c, given, n) == |NearHits(c, given, n)|
  {
    if n <= 0 {
      assert NearHits(c, given, n) == {};
    } else {
      NearCounts(c, given, n - 1);
      var near := WithinFifth(c[n - 1], given[n - 1]);
      NearIsWithinFifth(c[n - 1], given[n - 1]);
      assert NearHits(c, given, n) == NearHits(c, given, n - 1) + if near then {n - 1} else {};
    }
  }

  ghost predicate Comparable(list: seq<SignalInfo>, given: seq<UInt32>, n: int) {
    n <= |given| && n <= ATTRS && forall i :: 0 <= i < |list| ==> |list[i].attrs| == ATTRS
  }

  ghost function Exact(list: seq<SignalInfo>, given: seq<UInt32>, n: int): (r: seq<int>)
    requires Comparable(list, given, n)
    ensures |r| == |list|
  {
    seq(|list|, i requires 0 <= i < |list| => ExactScore(list[i].attrs, given, n))
  }

  ghost function Nears(list: seq<SignalInfo>, given: seq<UInt32>, n: int): (r: seq<int>)
    requires Comparable(list, given, n)
    ensures |r| == |list|
  {
    seq(|list|, i requires 0 <= i < |list| => NearScore(list[i].attrs, given, n))
  }

  // k is the first place with the highest score.
  ghost predicate FirstBest(s: seq<int>, k: int) {
    && 0 <= k < |s|
    && (forall j :: 0 <= j < |s| ==> s[j] <= s[k])
    && (forall j :: 0 <= j < k ==> s[j] < s[k])
  }

  // A full match is taken at once; otherwise the near scores are tried against
  // the best exact score, which is kept when none exceeds it.
  ghost predicate Chosen(exact: seq<int>, near: seq<int>, n: int, k: int)
    requires |exact| == |near|
  {
    && 0 <= k < |exact|
    && if (exists j :: 0 <= j < |exact| && exact[j] == n) || !Exceeded(exact, near) then FirstBest(exact, k)
       else FirstBest(near, k)
  }

  ghost predicate Exceeded(exact: seq<int>, near: seq<int>) {
    exists i :: 0 <= i < |near| && Above(near[i], exact)
  }

  ghost predicate Above(x: int, s: seq<int>) {
    forall j :: 0 <= j < |s| ==> s[j] < x
  }

  // r is the variant at place k, and that place is the one to choose.
  ghost predicate IsChosen(list: seq<SignalInfo>, given: seq<UInt32>, n: int, r: SignalInfo, k: int)
    requires Comparable(list, given, n)
  {
    0 <= k < |list| && r == list[k] && Chosen(Exact(list, given, n), Nears(list, given, n), n, k)
  }

  // Whichever pass decided, no variant is near in more places than the one
  // chosen, which agrees in all of them if any variant does.
  lemma ChosenIsNearest(list: seq<SignalInfo>, given: seq<UInt32>, numArgs: int, r: SignalInfo)
    requires Comparable(list, given, Considered(numArgs))
    requires exists k :: IsChosen(list, given, Considered(numArgs), r, k)
    ensures r in list
    ensures var n := if numArgs < 4 then numArgs else 4;
      && |r.attrs| == 4 && n <= |given|
      && (forall c :: c in list ==> |c.attrs| == 4 && |NearHits(c.attrs, given, n)| <= |NearHits(r.attrs, given, n)|)
      && (n >= 0 && (exists c :: c in list && c.attrs[..n] == given[..n]) ==> r.attrs[..n] == given[..n])
  {
    var n := Considered(numArgs);
    var k :| IsChosen(list, given, n, r, k);
    var exact, near := Exact(list, given, n), Nears(list, given, n);
    forall j | 0 <= j < |list| ensures near[j] <= near[k] {
      if i :| 0 <= i < |exact| && exact[i] == n {
        assert exact[i] <= exact[k];
      } else if !Exceeded(exact, near) {
        assert !Above(near[j], exact);
        var i :| 0 <= i < |exact| && exact[i] >= near[j];
        assert exact[i] <= exact[k];
      }
    }
    forall c | c in list ensures |NearHits(c.attrs, given, n)| <= |NearHits(r.attrs, given, n)| {
      var j :| 0 <= j < |list| && list[j] == c;
      assert near[j] <= near[k];
      NearCounts(c.attrs, given, n);
      NearCounts(r.attrs, given, n);
    }
    if c :| n >= 0 && c in list && c.attrs[..n] == given[..n] {
      var j :| 0 <= j < |list| && list[j] == c;
      assert exact[j] == n && exact[j] <= exact[k];
    }
  }

  // Some variant is equal in at least as many places as c is near in.
  ghost predicate Matched(list: seq<SignalInfo>, given: seq<UInt32>, n: int, c: SignalInfo)
    requires Comparable(list, given, n) && |c.attrs| == ATTRS
  {
    exists j :: 0 <= j < |list| && |NearHits(c.attrs, given, n)| <= |Hits(list[j].attrs, given, n)|
  }

  lemma MatchedNotAbove(list: seq<SignalInfo>, given: seq<UInt32>, n: int, i: int)
    requires Comparable(list, given, n) && 0 <= i < |list| && Matched(list, given, n, list[i])
    ensures !Above(Nears(list, given, n)[i], Exact(list, given, n))
  {
    var j :| 0 <= j < |list| && |NearHits(list[i].attrs, given, n)| <= |Hits(list[j].attrs, given, n)|;
    NearCounts(list[i].attrs, given, n);
    ExactCounts(list[j].attrs, given, n);
    assert Exact(list, given, n)[j] >= Nears(list, given, n)[i];
  }

  // Nearness decides only where it finds more than equality does: as long as
  // every variant is near in at most as many places as some variant is equal in,
  // the one chosen is equal in the most.
  lemma ChosenHitsMost(list: seq<SignalInfo>, given: seq<UInt32>, n: int, r: SignalInfo, c: SignalInfo)
    requires Comparable(list, given, n) && exists k :: IsChosen(list, given, n, r, k)
    requires c in list && forall i :: 0 <= i < |list| ==> Matched(list, given, n, list[i])
    ensures |Hits(c.attrs, given, n)| <= |Hits(r.attrs, given, n)|
  {
    var k :| IsChosen(list, given, n, r, k);
    forall i | 0 <= i < |list| ensures !Above(Nears(list, given, n)[i], Exact(list, given, n)) {
      MatchedNotAbove(list, given, n, i);
    }
    var j :| 0 <= j < |list| && list[j] == c;
    assert Exact(list, given, n)[j] <= Exact(list, given, n)[k];
    ExactCounts(c.attrs, given, n);
    ExactCounts(r.attrs, given, n);
  }

  // ---- Variant lists ----

  ghost predicate DistinctAttrs(list: seq<SignalInfo>) {
    forall i, j :: 0 <= i < j < |list| ==> list[i].attrs != list[j].attrs
  }

  // A variant with the same attributes is replaced where it stands; otherwise
  // the new one goes in front.
  ghost function WithVariant(list: seq<SignalInfo>, s: SignalInfo): seq<SignalInfo> {
    if k :| Duplicates(list, s, k) then list[k := s] else [s] + list
  }

  ghost predicate Duplicates(list: seq<SignalInfo>, s: SignalInfo, k: int) {
    0 <= k < |list| && list[k].attrs == s.attrs
  }

  lemma Replaced(list: seq<SignalInfo>, s: SignalInfo, k: int)
    requires DistinctAttrs(list) && Duplicates(list, s, k)
    ensures WithVariant(list, s) == list[k := s] && DistinctAttrs(list[k := s]) && s in list[k := s]
  {
    assert list[k := s][k] == s;
  }

  lemma PutInFront(list: seq<SignalInfo>, s: SignalInfo)
    requires DistinctAttrs(list) && forall k :: !Duplicates(list, s, k)
    ensures WithVariant(list, s) == [s] + list && DistinctAttrs([s] + list)
  {
    forall j | 0 <= j < |list| ensures list[j].attrs != s.attrs {
      assert !Duplicates(list, s, j);
    }
  }

  // Registering a variant keeps those with other attributes.
  lemma StaysUntilOverridden(list: seq<SignalInfo>, t: SignalInfo, s: SignalInfo)
    requires DistinctAttrs(list) && s in list
    ensures s in WithVariant(list, t) <==> s.attrs != t.attrs || s == t
  {
    var i :| 0 <= i < |list| && list[i] == s;
    if k :| Duplicates(list, t, k) {
      Replaced(list, t, k);
      assert i != k ==> list[k := t][i] == s;
    } else {
      PutInFront(list, t);
      assert !Duplicates(list, t, i);
    }
  }

  // As long as it is on the list, a variant is what its own attributes find.
  lemma OwnAttrsFind(list: seq<SignalInfo>, s: SignalInfo, r: SignalInfo)
    requires Comparable(list, s.attrs, ATTRS) && DistinctAttrs(list) && s in list
    requires exists k :: IsChosen(list, s.attrs, ATTRS, r, k)
    ensures r == s
  {
    var k :| IsChosen(list, s.attrs, ATTRS, r, k);
    var exact := Exact(list, s.attrs, ATTRS);
    var i :| 0 <= i < |list| && list[i] == s;
    assert exact[i] == ATTRS;
    assert exact[i] <= exact[k];
    assert list[k].attrs[..ATTRS] == s.attrs[..ATTRS];
    assert list[k].attrs == s.attrs;
  }

  // ---- Registering one after another ----

  ghost function VariantsAt(variants: map<int, seq<SignalInfo>>, key: int): seq<SignalInfo> {
    if key in variants then variants[key] else []
  }

  ghost function Registering(variants: map<int, seq<SignalInfo>>, s: SignalInfo): map<int, seq<SignalInfo>> {
    var list := VariantsAt(variants, s.Key());
    if s.category == 0 then variants
    else variants[s.Key() := if s.hasExtraAttrs then WithVariant(list, s) else list]
  }

  // The variant lists after some registrations, oldest first.
  ghost function RegisteringAll(variants: map<int, seq<SignalInfo>>, ss: seq<SignalInfo>): map<int, seq<SignalInfo>> {
    if ss == [] then variants else Registering(RegisteringAll(variants, ss[..|ss| - 1]), ss[|ss| - 1])
  }

  lemma RegisteringMore(variants: map<int, seq<SignalInfo>>, ss: seq<SignalInfo>, i: nat)
    requires i < |ss|
    ensures RegisteringAll(variants, ss[..i + 1]) == Registering(RegisteringAll(variants, ss[..i]), ss[i])
  {
    assert ss[..i + 1][..i] == ss[..i];
  }

  // t takes the place of s.
  predicate Overrides(t: SignalInfo, s: SignalInfo) {
    t.category != 0 && t.hasExtraAttrs && t.Key() == s.Key() && t.attrs == s.attrs
  }

  // Over any sequence of registrations a variant stays on its list exactly as
  // long as none of them overrides it.
  lemma {:induction false} StaysWhileRegistering(variants: map<int, seq<SignalInfo>>, ss: seq<SignalInfo>,
                                                 s: SignalInfo)
    requires DistinctAttrs(VariantsAt(variants, s.Key())) && s in VariantsAt(variants, s.Key()) && s !in ss
    ensures var list := VariantsAt(RegisteringAll(variants, ss), s.Key());
      DistinctAttrs(list) && (s in list <==> forall t :: t in ss ==> !Overrides(t, s))
  {
    if ss != [] {
      var init, t := ss[..|ss| - 1], ss[|ss| - 1];
      StaysWhileRegistering(variants, init, s);
      assert t in ss && forall u :: u in ss <==> u in init || u == t;
      var list := VariantsAt(RegisteringAll(variants, init), s.Key());
      var none := forall u :: u in init ==> !Overrides(u, s);
      assert (forall u :: u in ss ==> !Overrides(u, s)) <==> none && !Overrides(t, s);
      if t.category != 0 && t.hasExtraAttrs && t.Key() == s.Key() {
        WithVariantDistinct(list, t);
        if s in list {
          StaysUntilOverridden(list, t, s);
        } else {
          OnlyNewcomer(list, t, s);
        }
      }
    }
  }

  lemma WithVariantDistinct(list: seq<SignalInfo>, t: SignalInfo)
    requires DistinctAttrs(list)
    ensures DistinctAttrs(WithVariant(list, t))
  {
    if k :| Duplicates(list, t, k) {
      Replaced(list, t, k);
    } else {
      PutInFront(list, t);
    }
  }

  lemma OnlyNewcomer(list: seq<SignalInfo>, t: SignalInfo, s: SignalInfo)
    requires DistinctAttrs(list) && s !in list && s != t
    ensures s !in WithVariant(list, t)
  {
    if k :| Duplicates(list, t, k) {
      Replaced(list, t, k);
    } else {
      PutInFront(list, t);
    }
  }

  // So what its own attributes find is the variant itself exactly until another
  // one with the same key and attributes has been registered.
  lemma FoundUntilOverridden(variants: map<int, seq<SignalInfo>>, ss: seq<SignalInfo>, s: SignalInfo, r: SignalInfo)
    requires DistinctAttrs(VariantsAt(variants, s.Key())) && s in VariantsAt(variants, s.Key()) && s !in ss
    requires Comparable(VariantsAt(RegisteringAll(variants, ss), s.Key()), s.attrs, ATTRS)
    requires exists k :: IsChosen(VariantsAt(RegisteringAll(variants, ss), s.Key()), s.attrs, ATTRS, r, k)
    ensures r == s <==> forall t :: t in ss ==> !Overrides(t, s)
  {
    var list := VariantsAt(RegisteringAll(variants, ss), s.Key());
    StaysWhileRegistering(variants, ss, s);
    var k :| IsChosen(list, s.attrs, ATTRS, r, k);
    assert r in list;
    if s in list {
      OwnAttrsFind(list, s, r);
    }
  }

  // ---- The lists in memory ----

  function At(list: seq<SignalInfo>, i: int): SignalInfo? {
    if 0 <= i < |list| then list[i] else null
  }

  ghost predicate NextOk(list: seq<SignalInfo>, i: int)
    requires 0 <= i < |list|
    reads list
  {
    list[i].next == At(list, i + 1)
  }

  ghost predicate Linked(list: seq<SignalInfo>, head: SignalInfo?)
    reads list
  {
    head == At(list, 0) && forall i {:trigger NextOk(list, i)} :: 0 <= i < |list| ==> NextOk(list, i)
  }

  method ExactScoreOf(c: seq<UInt32>, given: seq<UInt32>, numArgs: int) returns (score: int)
    requires |c| == ATTRS && Considered(numArgs) <= |given|
    ensures score == ExactScore(c, given, Considered(numArgs))
  {
    score := 0;
    var i := 0;
    while i < Considered(numArgs)
      invariant 0 <= i && (i <= Considered(numArgs) || i == 0)
      invariant score == ExactScore(c, given, i)
    {
      if c[i] == given[i] {
        score := score + 1;
      }
      i := i + 1;
    }
  }

  method NearScoreOf(c: seq<UInt32>, given: seq<UInt32>, numArgs: int) returns (score: int)
    requires |c| == ATTRS && Considered(numArgs) <= |given|
    ensures score == NearScore(c, given, Considered(numArgs))
  {
    score := 0;
    var i := 0;
    while i < Considered(numArgs)
      invariant 0 <= i && (i <= Considered(numArgs) || i == 0)
      invariant score == NearScore(c, given, i)
    {
      var lowerBound, upperBound, candidateValue := (given[i] as int) * 80, (given[i] as int) * 120,
          (c[i] as int) * 100;
      if candidateValue >= lowerBound && candidateValue <= upperBound {
        score := score + 1;
      }
      i := i + 1;
    }
  }

  // The first walk: the first of the variants with the most equal attributes.
  method ExactPass(head: SignalInfo, numArgs: int, given: seq<UInt32>, ghost list: seq<SignalInfo>)
    returns (bestScore: int, bestMatch: SignalInfo, ghost k: int)
    requires Linked(list, head) && Comparable(list, given, Considered(numArgs))
    ensures 0 <= k < |list| && list[k] == bestMatch
    ensures var exact := Exact(list, given, Considered(numArgs)); FirstBest(exact, k) && bestScore == exact[k]
  {
    ghost var exact := Exact(list, given, Considered(numArgs));
    bestScore, bestMatch, k := -1, head, 0;
    var candidate: SignalInfo? := head;
    ghost var i := 0;
    while candidate != null
      invariant 0 <= i <= |list| && candidate == At(list, i)
      invariant i == 0 ==> bestScore == -1
      invariant i > 0 ==> 0 <= k < i && list[k] == bestMatch && bestScore == exact[k]
      invariant i > 0 ==> forall j :: 0 <= j < i ==> exact[j] <= bestScore && (j < k ==> exact[j] < bestScore)
      decreases |list| - i
    {
      assert NextOk(list, i);
      var score := ExactScoreOf(candidate.attrs, given, numArgs);
      if score > bestScore {
        bestScore, bestMatch, k := score, candidate, i;
      }
      candidate := candidate.next;
      i := i + 1;
    }
  }

  // The second walk: the first of the nearest variants, if one is nearer than
  // the score to beat.
  method NearPass(head: SignalInfo, numArgs: int, given: seq<UInt32>, start: int, match0: SignalInfo, ghost k0: int,
                  ghost list: seq<SignalInfo>)
    returns (bestMatch: SignalInfo, ghost k: int)
    requires Linked(list, head) && Comparable(list, given, Considered(numArgs))
    requires 0 <= k0 < |list| && list[k0] == match0
    ensures 0 <= k < |list| && list[k] == bestMatch
    ensures var near := Nears(list, given, Considered(numArgs));
      if exists j :: 0 <= j < |list| && near[j] > start then FirstBest(near, k) else k == k0
  {
    ghost var near := Nears(list, given, Considered(numArgs));
    var bestScore := start;
    bestMatch, k := match0, k0;
    var candidate: SignalInfo? := head;
    ghost var i := 0;
    while candidate != null
      invariant 0 <= i <= |list| && candidate == At(list, i)
      invariant 0 <= k < |list| && list[k] == bestMatch && bestScore >= start
      invariant bestScore == start ==> k == k0 && forall j :: 0 <= j < i ==> near[j] <= start
      invariant bestScore > start ==> bestScore == near[k] && k < i
      invariant bestScore > start ==> forall j :: 0 <= j < i ==> near[j] <= bestScore && (j < k ==> near[j] < bestScore)
      decreases |list| - i
    {
      assert NextOk(list, i);
      var score := NearScoreOf(candidate.attrs, given, numArgs);
      if score > bestScore {
        bestScore, bestMatch, k := score, candidate, i;
      }
      candidate := candidate.next;
      i := i + 1;
    }
  }

  // Walks the list twice, keeping the best score of the first walk.
  method FindBestExtraAttrsMatch(head: SignalInfo, numArgs: int, given: seq<UInt32>, ghost list: seq<SignalInfo>)
    returns (r: SignalInfo)
    requires Linked(list, head) && Comparable(list, given, Considered(numArgs))
    ensures exists k :: IsChosen(list, given, Considered(numArgs), r, k)
  {
    ghost var k;
    ghost var n := Considered(numArgs);
    ghost var exact, near := Exact(list, given, n), Nears(list, given, n);
    var bestScore, bestMatch;
    bestScore, bestMatch, k := ExactPass(head, numArgs, given, list);
    if bestScore == Considered(numArgs) {
      assert IsChosen(list, given, n, bestMatch, k);
      return bestMatch;
    }
    ghost var k0 := k;
    r, k := NearPass(head, numArgs, given, bestScore, bestMatch, k0, list);
    assert forall x :: Above(x, exact) <==> x > exact[k0];
    assert IsChosen(list, given, n, r, k);
  }

  // ---- The registry ----

  datatype SignalConf = SignalConf(signalInfo: SignalInfo?, featureSignals: SignalInfo?)

  // Puts a variant on a list: in the place of its duplicate, or in front.
  method AddToFeaturedSigList(head: SignalInfo?, s: SignalInfo, ghost list: seq<SignalInfo>)
    returns (newHead: SignalInfo, isOverridden: bool, ghost newList: seq<SignalInfo>)
    requires Linked(list, head) && s !in list && DistinctAttrs(list)
    modifies s`next, list
    ensures newList == WithVariant(list, s) && Linked(newList, newHead) && DistinctAttrs(newList)
    ensures isOverridden <==> exists k :: Duplicates(list, s, k)
    ensures isOverridden ==> |newList| == |list|
    ensures !isOverridden ==> newList == [s] + list
  {
    var prevInfo: SignalInfo?, curInfo: SignalInfo? := null, head;
    ghost var i := 0;
    while curInfo != null && curInfo.attrs != s.attrs
      invariant 0 <= i <= |list| && curInfo == At(list, i) && prevInfo == At(list, i - 1)
      invariant forall j :: 0 <= j < i ==> !Duplicates(list, s, j)
      decreases |list| - i
    {
      assert NextOk(list, i);
      prevInfo := curInfo;
      curInfo := curInfo.next;
      i := i + 1;
    }
    if curInfo != null {
      assert Duplicates(list, s, i);
      Replaced(list, s, i);
      assert NextOk(list, i);
      s.next := curInfo.next;
      if prevInfo != null {
        prevInfo.next := s;
        newHead := head;
      } else {
        newHead := s;
      }
      newList, isOverridden := list[i := s], true;
      forall j | 0 <= j < |newList| ensures NextOk(newList, j) {
        assert old(NextOk(list, j));
        assert j != i && j != i - 1 ==> list[j] != prevInfo;
      }
    } else {
      PutInFront(list, s);
      s.next := head;
      newHead, newList, isOverridden := s, [s] + list, false;
      forall j | 0 <= j < |newList| ensures NextOk(newList, j) {
        assert j > 0 ==> newList[j] == list[j - 1] && old(NextOk(list, j - 1));
      }
    }
  }

  // A variant and a plain configuration belong under their own key.
  ghost predicate VariantOk(key: int, n: SignalInfo) {
    n.Key() == key && n.hasExtraAttrs && |n.attrs| == ATTRS
  }

  ghost predicate PlainOk(key: int, n: SignalInfo) {
    n.Key() == key && !n.hasExtraAttrs
  }

  // What is known under one key.
  ghost predicate EntryOk(key: int, c: SignalConf, list: seq<SignalInfo>)
    reads list
  {
    && (forall i {:trigger VariantOk(key, list[i])} :: 0 <= i < |list| ==> VariantOk(key, list[i]))
    && (c.signalInfo != null ==> PlainOk(key, c.signalInfo))
    && Linked(list, c.featureSignals) && DistinctAttrs(list)
  }

  ghost function Plain(c: SignalConf): set<SignalInfo> {
    if c.signalInfo != null then {c.signalInfo} else {}
  }

  ghost function Members(list: seq<SignalInfo>): set<SignalInfo> {
    set n | n in list
  }

  ghost function Under(c: SignalConf, list: seq<SignalInfo>): set<SignalInfo> {
    Plain(c) + Members(list)
  }

  ghost predicate KeyOk(configs: map<int, SignalConf>, variants: map<int, seq<SignalInfo>>, registered: set<SignalInfo>,
                        key: int)
    reads registered
  {
    && key in configs && key in variants
    && Under(configs[key], variants[key]) <= registered
    && EntryOk(key, configs[key], variants[key])
  }

  ghost predicate Known(configs: map<int, SignalConf>, variants: map<int, seq<SignalInfo>>, n: SignalInfo) {
    n.Key() in configs && n.Key() in variants && n in Under(configs[n.Key()], variants[n.Key()])
  }

  ghost predicate AllKnown(configs: map<int, SignalConf>, variants: map<int, seq<SignalInfo>>,
                           registered: set<SignalInfo>) {
    && configs.Keys == variants.Keys
    && forall n {:trigger Known(configs, variants, n)} :: n in registered ==> Known(configs, variants, n)
  }

  // All keys are in order, but perhaps for one.
  ghost predicate KeysOk(configs: map<int, SignalConf>, variants: map<int, seq<SignalInfo>>,
                         registered: set<SignalInfo>, but: Option<int>)
    reads registered
  {
    forall key {:trigger KeyOk(configs, variants, registered, key)} :: key in configs && Some(key) != but ==>
      KeyOk(configs, variants, registered, key)
  }

  class SignalRegistry {
    var totalSignals: int
    var configs: map<int, SignalConf>
    ghost var variants: map<int, seq<SignalInfo>>
    ghost var registered: set<SignalInfo>

    // The signals registered are those found under the keys, and they are counted.
    ghost predicate Valid()
      reads this, registered
    {
      && KeysOk(configs, variants, registered, None)
      && AllKnown(configs, variants, registered)
      && totalSignals == |registered|
    }

    constructor ()
      ensures Valid() && configs == map[] && registered == {}
    {
      totalSignals := 0;
      configs, variants := map[], map[];
      registered := {};
    }

    ghost function Variants(key: int): seq<SignalInfo>
      reads this
    {
      if key in variants then variants[key] else []
    }

    function Conf(key: int): SignalConf
      reads this
    {
      if key in configs then configs[key] else SignalConf(null, null)
    }

    // Links a variant into the list of its key; the other lists stay as they are.
    method LinkVariant(s: SignalInfo) returns (conf: SignalConf, isOverridden: bool, ghost list: seq<SignalInfo>)
      requires Valid() && s !in registered && s.next == null && VariantOk(s.Key(), s)
      modifies s`next, registered
      ensures list == WithVariant(Variants(s.Key()), s) && EntryOk(s.Key(), conf, list)
      ensures conf.signalInfo == Conf(s.Key()).signalInfo
      ensures isOverridden <==> exists k :: Duplicates(Variants(s.Key()), s, k)
      ensures KeysOk(configs, variants, registered, Some(s.Key()))
    {
      var key := s.Key();
      conf := Conf(key);
      ghost var before := Variants(key);
      assert key in configs ==> KeyOk(configs, variants, registered, key);
      assert forall i :: 0 <= i < |before| ==> VariantOk(key, before[i]) && before[i] in Under(conf, before);
      var head;
      head, isOverridden, list := AddToFeaturedSigList(conf.featureSignals, s, before);
      conf := conf.(featureSignals := head);
      forall i | 0 <= i < |list| ensures VariantOk(key, list[i]) {
        assert list[i] == s || list[i] in before;
      }
      forall k2 | k2 in configs && k2 != key ensures KeyOk(configs, variants, registered, k2) {
        assert old(KeyOk(configs, variants, registered, k2));
        forall j | 0 <= j < |variants[k2]| ensures NextOk(variants[k2], j) {
          assert old(NextOk(variants[k2], j)) && VariantOk(k2, variants[k2][j]);
          assert variants[k2][j] in Under(configs[k2], variants[k2]);
        }
      }
    }

    // The signals replaced by s: none, or the one with the same key and, among
    // variants, the same attributes.
    ghost function Replaces(s: SignalInfo): set<SignalInfo>
      reads this
    {
      if s.hasExtraAttrs then SameAttrs(Variants(s.Key()), s)
      else Plain(Conf(s.Key()))
    }

    // Takes over the new books.
    method Enter(c: map<int, SignalConf>, ghost v: map<int, seq<SignalInfo>>, ghost r: set<SignalInfo>,
                 isOverridden: bool)
      requires KeysOk(c, v, r, None) && AllKnown(c, v, r)
      requires |r| == totalSignals + if isOverridden then 0 else 1
      modifies this
      ensures Valid() && configs == c && variants == v && registered == r
    {
      configs, variants, registered := c, v, r;
      if !isOverridden {
        totalSignals := totalSignals + 1;
      }
    }

    method RegisterVariant(s: SignalInfo)
      requires Valid() && s !in registered && s.next == null && VariantOk(s.Key(), s)
      modifies this, s`next, registered
      ensures Valid()
      ensures registered == old(registered) - old(Replaces(s)) + {s}
      ensures variants == old(variants)[s.Key() := WithVariant(old(Variants(s.Key())), s)]
      ensures configs == old(configs)[s.Key() := Conf(s.Key())]
           && Conf(s.Key()).signalInfo == old(Conf(s.Key())).signalInfo
    {
      ghost var replaced, before := Replaces(s), Variants(s.Key());
      assert s.Key() in configs ==> KeyOk(configs, variants, registered, s.Key());
      VariantReplaced(s.Key(), Conf(s.Key()), before, s);
      var conf, isOverridden;
      ghost var list;
      conf, isOverridden, list := LinkVariant(s);
      EnteredKeys(configs, variants, registered, s, conf, list, replaced);
      CountAfter(registered, replaced, s);
      Enter(configs[s.Key() := conf], variants[s.Key() := list], registered - replaced + {s}, isOverridden);
    }

    method RegisterPlain(s: SignalInfo)
      requires Valid() && s !in registered && PlainOk(s.Key(), s)
      modifies this
      ensures Valid()
      ensures registered == old(registered) - old(Replaces(s)) + {s}
      ensures configs == old(configs)[s.Key() := old(Conf(s.Key())).(signalInfo := s)]
      ensures variants == old(variants)[s.Key() := old(Variants(s.Key()))]
    {
      ghost var replaced, before := Replaces(s), Variants(s.Key());
      assert s.Key() in configs ==> KeyOk(configs, variants, registered, s.Key());
      var isOverridden := Conf(s.Key()).signalInfo != null;
      var conf := Conf(s.Key()).(signalInfo := s);
      PlainReplaced(s.Key(), Conf(s.Key()), before, s);
      EnteredKeys(configs, variants, registered, s, conf, before, replaced);
      CountAfter(registered, replaced, s);
      Enter(configs[s.Key() := conf], variants[s.Key() := before], registered - replaced + {s}, isOverridden);
    }

    // A malformed signal is dropped; a variant goes on its list; a plain
    // configuration takes the place of the earlier one.
    method RegisterSignal(s: SignalInfo)
      requires Valid() && s !in registered && s.next == null && |s.attrs| == ATTRS
      modifies this, s`next, registered
      ensures Valid()
      ensures s.category == 0 ==> configs == old(configs) && variants == old(variants) && registered == old(registered)
      ensures s.category != 0 ==> registered == old(registered) - old(Replaces(s)) + {s}
      ensures s.category != 0 && s.hasExtraAttrs ==>
                && variants == old(variants)[s.Key() := WithVariant(old(Variants(s.Key())), s)]
                && configs == old(configs)[s.Key() := Conf(s.Key())]
                  && Conf(s.Key()).signalInfo == old(Conf(s.Key())).signalInfo
      ensures s.category != 0 && !s.hasExtraAttrs ==>
                && configs == old(configs)[s.Key() := old(Conf(s.Key())).(signalInfo := s)]
                && variants == old(variants)[s.Key() := old(Variants(s.Key()))]
    {
      if s.category == 0 {
        return;
      }
      if s.hasExtraAttrs {
        RegisterVariant(s);
      } else {
        RegisterPlain(s);
      }
    }

    // The same, in terms of what one registration does to the lists.
    method RegisterNext(s: SignalInfo)
      requires Valid() && s !in registered && s.next == null && |s.attrs| == ATTRS
      modifies this, s`next, registered
      ensures Valid() && variants == Registering(old(variants), s) && registered <= old(registered) + {s}
    {
      RegisterSignal(s);
    }

    // Signals registered one after another.
    method RegisterSignals(ss: seq<SignalInfo>)
      requires Valid() && NoDup(ss)
      requires forall s :: s in ss ==> s !in registered && s.next == null && |s.attrs| == ATTRS
      modifies this, ss, registered
      ensures Valid() && variants == RegisteringAll(old(variants), ss)
    {
      ghost var before, all := variants, registered + Members(ss);
      for i := 0 to |ss|
        invariant Valid() && variants == RegisteringAll(before, ss[..i]) && registered <= all
        invariant forall j :: i <= j < |ss| ==> ss[j] !in registered && ss[j].next == null
      {
        RegisteringMore(before, ss, i);
        RegisterNext(ss[i]);
      }
      assert ss[..|ss|] == ss;
    }

    // The configuration for a code and type: the plain one when no attributes
    // are given or there is no variant, otherwise the best variant.
    method GetSignalConfigByIdAndType(sigId: UInt32, sigType: UInt32, numArgs: int, extraAttrs: Option<seq<UInt32>>)
      returns (r: SignalInfo?)
      requires Valid() && (extraAttrs.Some? ==> Considered(numArgs) <= |extraAttrs.value|)
      ensures var key := KeyOf(sigId, sigType);
        var plain, list := Conf(key).signalInfo, Variants(key);
        if extraAttrs == None then r == if plain != null then plain else At(list, 0)
        else if list == [] then r == plain
        else
          && Comparable(list, extraAttrs.value, Considered(numArgs))
          && r != null && exists k :: IsChosen(list, extraAttrs.value, Considered(numArgs), r, k)
    {
      var key := KeyOf(sigId, sigType);
      if key !in configs {
        return null;
      }
      var conf := configs[key];
      ghost var list := variants[key];
      assert KeyOk(configs, variants, registered, key);
      if extraAttrs == None {
        return if conf.signalInfo != null then conf.signalInfo else conf.featureSignals;
      }
      if conf.featureSignals == null {
        return conf.signalInfo;
      }
      assert forall i :: 0 <= i < |list| ==> VariantOk(key, list[i]);
      r := FindBestExtraAttrsMatch(conf.featureSignals, numArgs, extraAttrs.value, list);
    }
  }

  lemma Exchange(p: set<SignalInfo>, m: set<SignalInfo>, less: set<SignalInfo>, more: set<SignalInfo>)
    requires p !! less
    ensures p + (m - less + more) == (p + m) - less + more
  {
  }

  lemma VariantReplaced(key: int, c: SignalConf, list: seq<SignalInfo>, s: SignalInfo)
    requires EntryOk(key, c, list) && VariantOk(key, s) && s !in Under(c, list)
    ensures var replaced, r := SameAttrs(list, s), WithVariant(list, s);
      && |replaced| == (if exists k :: Duplicates(list, s, k) then 1 else 0)
      && (forall n :: n in replaced ==> n.Key() == key)
      && forall d: SignalConf :: d.signalInfo == c.signalInfo ==> Under(d, r) == Under(c, list) - replaced + {s}
  {
    var replaced, r := SameAttrs(list, s), WithVariant(list, s);
    ReplacedVariants(list, s);
    forall i | 0 <= i < |list| ensures list[i] != c.signalInfo && list[i].Key() == key {
      assert VariantOk(key, list[i]);
    }
    forall n | n in Plain(c) ensures n !in replaced {
    }
    Exchange(Plain(c), Members(list), replaced, {s});
  }

  // Everything is in order again once the entry of one key has been replaced.
  lemma EnteredKeys(configs: map<int, SignalConf>, variants: map<int, seq<SignalInfo>>, registered: set<SignalInfo>,
                    s: SignalInfo, conf: SignalConf, list: seq<SignalInfo>, replaced: set<SignalInfo>)
    requires KeysOk(configs, variants, registered, Some(s.Key())) && AllKnown(configs, variants, registered)
    requires EntryOk(s.Key(), conf, list) && forall n :: n in replaced ==> n.Key() == s.Key()
    requires var was := if s.Key() in configs then Under(configs[s.Key()], variants[s.Key()]) else {};
      Under(conf, list) == was - replaced + {s} && was <= registered
    ensures KeysOk(configs[s.Key() := conf], variants[s.Key() := list], registered - replaced + {s}, None)
    ensures AllKnown(configs[s.Key() := conf], variants[s.Key() := list], registered - replaced + {s})
  {
    var key := s.Key();
    var c, v, r := configs[key := conf], variants[key := list], registered - replaced + {s};
    forall k | k in c ensures KeyOk(c, v, r, k) {
      if k != key {
        assert KeyOk(configs, variants, registered, k);
        forall n | n in Under(c[k], v[k]) ensures n in r {
          UnderKey(k, c[k], v[k], n);
        }
      }
    }
    forall n | n in r ensures Known(c, v, n) {
      assert n != s ==> Known(configs, variants, n);
    }
  }

  lemma CountAfter(registered: set<SignalInfo>, replaced: set<SignalInfo>, s: SignalInfo)
    requires replaced <= registered && s !in registered
    ensures |registered - replaced + {s}| == |registered| - |replaced| + 1
  {
    assert registered == (registered - replaced) + replaced;
  }

  lemma PlainReplaced(key: int, c: SignalConf, list: seq<SignalInfo>, s: SignalInfo)
    requires EntryOk(key, c, list) && PlainOk(key, s)
    ensures Under(c.(signalInfo := s), list)
         == Under(c, list) - Plain(c) + {s}
  {
    forall i | 0 <= i < |list| ensures list[i] != c.signalInfo {
      assert VariantOk(key, list[i]);
    }
  }

  lemma UnderKey(key: int, c: SignalConf, list: seq<SignalInfo>, n: SignalInfo)
    requires EntryOk(key, c, list) && n in Under(c, list)
    ensures n.Key() == key
  {
    if n in list {
      var i :| 0 <= i < |list| && list[i] == n;
      assert VariantOk(key, list[i]);
    }
  }

  ghost function SameAttrs(list: seq<SignalInfo>, s: SignalInfo): set<SignalInfo> {
    set n | n in list && n.attrs == s.attrs
  }

  lemma ReplacedVariants(list: seq<SignalInfo>, s: SignalInfo)
    requires DistinctAttrs(list) && s !in list
    ensures var replaced, r := SameAttrs(list, s), WithVariant(list, s);
      && |replaced| == (if exists k :: Duplicates(list, s, k) then 1 else 0)
      && Members(r) == Members(list) - replaced + {s}
  {
    var replaced, r := SameAttrs(list, s), WithVariant(list, s);
    if k :| Duplicates(list, s, k) {
      Replaced(list, s, k);
      assert replaced == {list[k]};
      forall n ensures n in r <==> (n in list && n !in replaced) || n == s {
        if n in list && n !in replaced {
          var i :| 0 <= i < |list| && list[i] == n;
          assert r[i] == n;
        }
      }
    } else {
      PutInFront(list, s);
      forall n | n in list ensures n.attrs != s.attrs {
        var i :| 0 <= i < |list| && list[i] == n;
        assert !Duplicates(list, s, i);
      }
      assert replaced == {};
    }
  }

  // ---- The count ----

  // The plain configuration, if any, and all variants under some keys.
  ghost function Sum(configs: map<int, SignalConf>, variants: map<int, seq<SignalInfo>>, keys: seq<int>): nat
    requires forall k :: k in keys ==> k in configs && k in variants
  {
    if keys == [] then 0
    else
      var k := keys[|keys| - 1];
      Sum(configs, variants, keys[..|keys| - 1]) + |Plain(configs[k])| + |variants[k]|
  }

  ghost function UnderKeys(registered: set<SignalInfo>, keys: seq<int>): set<SignalInfo> {
    set n | n in registered && n.Key() in keys
  }

  lemma {:induction false} MembersSize(list: seq<SignalInfo>)
    requires DistinctAttrs(list)
    ensures |Members(list)| == |list|
  {
    if list != [] {
      var init, last := list[..|list| - 1], list[|list| - 1];
      MembersSize(init);
      assert last !in init;
      assert Members(list) == Members(init) + {last};
    }
  }

  lemma {:induction false} SumCounts(configs: map<int, SignalConf>, variants: map<int, seq<SignalInfo>>,
                                     registered: set<SignalInfo>, keys: seq<int>)
    requires KeysOk(configs, variants, registered, None) && AllKnown(configs, variants, registered)
    requires (forall k :: k in keys ==> k in configs) && forall i, j :: 0 <= i < j < |keys| ==> keys[i] != keys[j]
    ensures |UnderKeys(registered, keys)| == Sum(configs, variants, keys)
  {
    if keys == [] {
      assert UnderKeys(registered, keys) == {};
    } else {
      var init, k := keys[..|keys| - 1], keys[|keys| - 1];
      SumCounts(configs, variants, registered, init);
      assert KeyOk(configs, variants, registered, k);
      OneKey(configs, variants, registered, k);
      assert forall x :: x in keys <==> x in init || x == k;
      assert UnderKeys(registered, keys) == UnderKeys(registered, init) + Under(configs[k], variants[k]);
    }
  }

  lemma OneKey(configs: map<int, SignalConf>, variants: map<int, seq<SignalInfo>>, registered: set<SignalInfo>, k: int)
    requires KeyOk(configs, variants, registered, k) && AllKnown(configs, variants, registered)
    ensures |Under(configs[k], variants[k])| == |Plain(configs[k])| + |variants[k]|
    ensures forall n :: n in Under(configs[k], variants[k]) <==> n in registered && n.Key() == k
  {
    var c, list := configs[k], variants[k];
    MembersSize(list);
    forall i | 0 <= i < |list| ensures list[i] != c.signalInfo {
      assert VariantOk(k, list[i]);
    }
    assert Plain(c) !! Members(list);
    forall n | n in Under(c, list) ensures n.Key() == k {
      UnderKey(k, c, list, n);
    }
    forall n | n in registered && n.Key() == k ensures n in Under(c, list) {
      assert Known(configs, variants, n);
    }
  }

  // The total is the number of plain configurations plus the lengths of all
  // variant lists, over any enumeration of the keys.
  lemma TotalIsSum(configs: map<int, SignalConf>, variants: map<int, seq<SignalInfo>>, registered: set<SignalInfo>,
                   keys: seq<int>)
    requires KeysOk(configs, variants, registered, None) && AllKnown(configs, variants, registered)
    requires (forall k :: k in keys <==> k in configs) && forall i, j :: 0 <= i < j < |keys| ==> keys[i] != keys[j]
    ensures |registered| == Sum(configs, variants, keys)
  {
    SumCounts(configs, variants, registered, keys);
    forall n | n in registered ensures n.Key() in keys {
      assert Known(configs, variants, n);
    }
    assert UnderKeys(registered, keys) == registered;
  }
}
