// The health-based rate limiter: requests that follow too soon on the previous
// one cost health, others win some back, and a client without health is blocked.

module RateLimiters {
  import opened Types
  import opened ClientData

  datatype Limits = Limits(delta: int, penalty: real, reward: real)

  function MinReal(a: real, b: real): real {
    if a <= b then a else b
  }

  datatype Verdict = Verdict(client: TidData, accepted: bool)

  // One call at time now for a tracked client.
  function Judge(l: Limits, c: TidData, now: int): Verdict {
    if c.health <= 0.0 then Verdict(c, false)
    else
      var health :=
        if c.lastTimestamp == 0 then c.health
        else if now - c.lastTimestamp < l.delta then c.health - l.penalty
        else MinReal(100.0, c.health + l.reward);
      if health <= 0.0 then Verdict(c.(health := health), false)
      else Verdict(c.(health := health, lastTimestamp := now), true)
  }

  class RateLimiter {
    const limits: Limits
    const clients: ClientDataManager

    constructor (limits: Limits, clients: ClientDataManager)
      ensures this.limits == limits && this.clients == clients
    {
      this.limits, this.clients := limits, clients;
    }

    // An unknown client has health -1 and is refused.
    method ShouldBeProcessed(tid: int, now: int) returns (accepted: bool)
      modifies clients`tidRepo
      ensures tid !in old(clients.tidRepo) ==> !accepted && clients.tidRepo == old(clients.tidRepo)
      ensures tid in old(clients.tidRepo) ==>
                var v := Judge(limits, old(clients.tidRepo)[tid], now);
                accepted == v.accepted && clients.tidRepo == old(clients.tidRepo)[tid := v.client]
      ensures clients.HandlesOf() == old(clients.HandlesOf())
    {
      var health := clients.GetHealthByClientID(tid);
      if health <= 0.0 {
        if tid in clients.tidRepo {
          assert clients.tidRepo == clients.tidRepo[tid := clients.tidRepo[tid]];
        }
        return false;
      }
      var last := clients.GetLastRequestTimestampByClientID(tid);
      if last != 0 {
        if now - last < limits.delta {
          health := health - limits.penalty;
        } else {
          health := MinReal(100.0, health + limits.reward);
        }
      }
      clients.UpdateHealthByClientID(tid, health);
      if health <= 0.0 {
        return false;
      }
      clients.UpdateLastRequestTimestampByClientID(tid, now);
      return true;
    }
  }

  // ---- Whole histories of one client ----

  ghost function After(l: Limits, calls: seq<int>): TidData {
    if calls == [] then NEW_CLIENT else Judge(l, After(l, calls[..|calls| - 1]), calls[|calls| - 1]).client
  }

  // Was the last of these calls accepted?
  ghost predicate LastIsAccepted(l: Limits, calls: seq<int>)
    requires calls != []
  {
    Judge(l, After(l, calls[..|calls| - 1]), calls[|calls| - 1]).accepted
  }

  // When the last accepted one of these calls was made, None if there is none.
  ghost function LastAccepted(l: Limits, calls: seq<int>): Option<int> {
    if calls == [] then None
    else if LastIsAccepted(l, calls) then Some(calls[|calls| - 1])
    else LastAccepted(l, calls[..|calls| - 1])
  }

  // The stored timestamp is the time of the last accepted call.
  lemma {:induction false} TimestampIsLastAccepted(l: Limits, calls: seq<int>)
    ensures After(l, calls).lastTimestamp
         == match LastAccepted(l, calls) case Some(t) => t case None => 0
  {
    if calls != [] {
      TimestampIsLastAccepted(l, calls[..|calls| - 1]);
    }
  }

  // What one more call does to a client that is not blocked: too soon after the
  // last accepted one it costs exactly the penalty, otherwise it earns the
  // reward, up to 100, and the first one does neither. It is accepted exactly if
  // health is left, and then is the last accepted one itself.
  lemma CallEffect(l: Limits, calls: seq<int>, now: int)
    requires After(l, calls).health > 0.0
    requires forall i :: 0 <= i < |calls| ==> calls[i] != 0
    ensures var was, after := After(l, calls).health, After(l, calls + [now]).health;
      && after == (match LastAccepted(l, calls)
                   case None => was
                   case Some(t) => if now - t < l.delta then was - l.penalty
                     else if was + l.reward > 100.0 then 100.0 else was + l.reward)
      && (LastIsAccepted(l, calls + [now]) <==> after > 0.0)
      && LastAccepted(l, calls + [now]) == if after > 0.0 then Some(now) else LastAccepted(l, calls)
  {
    assert (calls + [now])[..|calls + [now]| - 1] == calls;
    TimestampIsLastAccepted(l, calls);
    AcceptedAtSomeCall(l, calls);
  }

  lemma {:induction false} AcceptedAtSomeCall(l: Limits, calls: seq<int>)
    ensures LastAccepted(l, calls).Some? ==> LastAccepted(l, calls).value in calls
  {
    if calls != [] {
      AcceptedAtSomeCall(l, calls[..|calls| - 1]);
    }
  }

  // Every call comes less than delta after the one before.
  ghost predicate Burst(l: Limits, calls: seq<int>) {
    && (forall i :: 0 <= i < |calls| ==> calls[i] != 0)
    && forall i :: 1 <= i < |calls| ==> calls[i] - calls[i - 1] < l.delta
  }

  // The cost of p penalties.
  function Spent(l: Limits, p: nat): real {
    l.penalty * (p as real)
  }

  // What n penalties leave of the initial health.
  ghost function LeftAfter(l: Limits, n: nat): real {
    if n == 0 then 100.0 else LeftAfter(l, n - 1) - l.penalty
  }

  lemma {:induction false} LeftInAll(l: Limits, n: nat)
    ensures LeftAfter(l, n) == 100.0 - Spent(l, n)
  {
    if n == 0 {
      NothingSpent(l);
    } else {
      LeftInAll(l, n - 1);
      SpentOnce(l, n - 1);
    }
  }

  lemma NothingSpent(l: Limits)
    ensures Spent(l, 0) == 0.0
  {
    assert 0 as real == 0.0;
  }

  lemma SpentOnce(l: Limits, k: nat)
    ensures Spent(l, k + 1) == Spent(l, k) + l.penalty
  {
    assert (k + 1) as real == k as real + 1.0;
  }

  // How such calls leave a client: with what is left, or blocked.
  ghost predicate LeftWith(l: Limits, calls: seq<int>, left: real)
    requires calls != []
  {
    if left > 0.0 then
      After(l, calls).health == left && LastIsAccepted(l, calls) && LastAccepted(l, calls) == Some(calls[|calls| - 1])
    else After(l, calls).health <= 0.0 && !LastIsAccepted(l, calls)
  }

  lemma BurstGoesOn(l: Limits, calls: seq<int>, now: int, left: real)
    requires Burst(l, calls) && calls != [] && now - calls[|calls| - 1] < l.delta && l.penalty >= 0.0
    requires LeftWith(l, calls, left)
    ensures LeftWith(l, calls + [now], left - l.penalty)
  {
    if left > 0.0 {
      CallEffect(l, calls, now);
    } else {
      assert (calls + [now])[..|calls + [now]| - 1] == calls;
    }
  }

  lemma {:induction false} BurstCosts(l: Limits, calls: seq<int>)
    requires Burst(l, calls) && calls != [] && l.penalty >= 0.0
    ensures LeftWith(l, calls, LeftAfter(l, |calls| - 1))
  {
    var n := |calls| - 1;
    if n == 0 {
      CallEffect(l, [], calls[0]);
      assert calls == [] + [calls[0]];
    } else {
      BurstCosts(l, calls[..n]);
      BurstGoesOn(l, calls[..n], calls[n], LeftAfter(l, n - 1));
      assert calls == calls[..n] + [calls[n]];
    }
  }

  // Of k + 1 such calls each but the first costs one penalty. The last one is
  // accepted exactly if that leaves something; otherwise the client is blocked,
  // and every later call is refused.
  lemma BurstBlocks(l: Limits, calls: seq<int>, k: nat, left: real, more: seq<int>, now: int)
    requires Burst(l, calls) && |calls| == k + 1 && l.penalty >= 0.0
    requires left == 100.0 - Spent(l, k)
    ensures left > 0.0 ==> After(l, calls).health == left
    ensures LastIsAccepted(l, calls) <==> left > 0.0
    ensures left <= 0.0 ==> !LastIsAccepted(l, calls + more + [now])
  {
    assert left == LeftAfter(l, k) by {
      LeftInAll(l, k);
    }
    BurstCosts(l, calls);
    if left <= 0.0 {
      RefusedForever(l, calls, more, now);
    }
  }

  lemma RefusedForever(l: Limits, calls: seq<int>, more: seq<int>, now: int)
    requires After(l, calls).health <= 0.0
    ensures !LastIsAccepted(l, calls + more + [now])
  {
    assert (calls + more + [now])[..|calls + more|] == calls + more;
    BlockedForever(l, calls, more, now);
  }

  // A client that leaves delta between its calls is always accepted.
  lemma {:induction false} PatientAccepted(l: Limits, calls: seq<int>)
    requires l.reward >= 0.0 && calls != [] && forall i :: 0 <= i < |calls| ==> calls[i] != 0
    requires forall i :: 1 <= i < |calls| ==> calls[i] - calls[i - 1] >= l.delta
    ensures LastIsAccepted(l, calls) && After(l, calls).health == 100.0
    ensures LastAccepted(l, calls) == Some(calls[|calls| - 1])
  {
    var n := |calls| - 1;
    var init, now := calls[..n], calls[n];
    assert calls == init + [now];
    if n > 0 {
      PatientAccepted(l, init);
      assert now - init[n - 1] >= l.delta;
    }
    CallEffect(l, init, now);
  }

  // A call that found the client unblocked and either cost or earned health.
  ghost predicate Penalised(l: Limits, c: TidData, now: int) {
    c.health > 0.0 && c.lastTimestamp != 0 && now - c.lastTimestamp < l.delta
  }

  ghost predicate Rewarded(l: Limits, c: TidData, now: int) {
    c.health > 0.0 && c.lastTimestamp != 0 && now - c.lastTimestamp >= l.delta
  }

  ghost function CountPenalised(l: Limits, calls: seq<int>): nat {
    if calls == [] then 0
    else
      var init, now := calls[..|calls| - 1], calls[|calls| - 1];
      CountPenalised(l, init) + if Penalised(l, After(l, init), now) then 1 else 0
  }

  ghost function CountRewarded(l: Limits, calls: seq<int>): nat {
    if calls == [] then 0
    else
      var init, now := calls[..|calls| - 1], calls[|calls| - 1];
      CountRewarded(l, init) + if Rewarded(l, After(l, init), now) then 1 else 0
  }

  function Earned(l: Limits, r: nat): real {
    l.reward * (r as real)
  }

  // What penalties and rewards leave of the initial health.
  function Budget(l: Limits, p: nat, r: nat): real {
    100.0 + Earned(l, r) - Spent(l, p)
  }

  lemma BudgetSteps(l: Limits, p: nat, r: nat)
    ensures Budget(l, p + 1, r) == Budget(l, p, r) - l.penalty
    ensures Budget(l, p, r + 1) == Budget(l, p, r) + l.reward
  {
    assert (p + 1) as real == p as real + 1.0;
    assert (r + 1) as real == r as real + 1.0;
  }

  // Health never exceeds 100, nor that budget.
  lemma {:induction false} HealthBound(l: Limits, calls: seq<int>)
    requires l.penalty >= 0.0 && l.reward >= 0.0
    ensures After(l, calls).health <= 100.0
    ensures After(l, calls).health <= Budget(l, CountPenalised(l, calls), CountRewarded(l, calls))
  {
    if calls == [] {
      assert CountPenalised(l, calls) == 0 && CountRewarded(l, calls) == 0;
    } else {
      var init := calls[..|calls| - 1];
      HealthBound(l, init);
      BudgetSteps(l, CountPenalised(l, init), CountRewarded(l, init));
    }
  }

  // The amortised bound: a client that is not blocked has been penalised less
  // than its rewards allow.
  lemma PenaltiesBounded(l: Limits, calls: seq<int>, p: nat, r: nat)
    requires l.penalty >= 0.0 && l.reward >= 0.0 && After(l, calls).health > 0.0
    requires p == CountPenalised(l, calls) && r == CountRewarded(l, calls)
    ensures Spent(l, p) < 100.0 + Earned(l, r)
  {
    HealthBound(l, calls);
    assert Budget(l, p, r) > 0.0;
  }

  // Blocking is permanent: once health is gone, no later call is accepted and
  // nothing about the client changes any more.
  lemma {:induction false} BlockedForever(l: Limits, calls: seq<int>, more: seq<int>, now: int)
    requires After(l, calls).health <= 0.0
    ensures After(l, calls + more) == After(l, calls)
    ensures !Judge(l, After(l, calls + more), now).accepted
  {
    if more == [] {
      assert calls + more == calls;
    } else {
      assert (calls + more)[..|calls + more| - 1] == calls + more[..|more| - 1];
      BlockedForever(l, calls, more[..|more| - 1], more[|more| - 1]);
    }
  }
}
