/** How one account is chosen: candidates, weights, and the weighted pick. */
module Selection {
  import opened Wrappers
  import Ordering
  import opened PoolModel

  // ----- The weighted pick -----

  function Total(ws: seq<real>): real {
    if ws == [] then 0.0 else Total(ws[..|ws| - 1]) + ws[|ws| - 1]
  }

  /** Sum of the first `i` weights. */
  function Prefix(ws: seq<real>, i: nat): real
    requires i <= |ws|
  {
    Total(ws[..i])
  }

  /** The first index at which `target` is used up; the last index if it never is. */
  function Pick(ws: seq<real>, target: real): (i: nat)
    requires ws != []
    ensures i < |ws|
  {
    if target - ws[0] <= 0.0 || |ws| == 1 then 0 else 1 + Pick(ws[1..], target - ws[0])
  }

  predicate Positive(ws: seq<real>) {
    forall i :: 0 <= i < |ws| ==> ws[i] > 0.0
  }

  lemma PrefixStep(ws: seq<real>, i: nat)
    requires i < |ws|
    ensures Prefix(ws, i + 1) == Prefix(ws, i) + ws[i]
  {
    assert ws[..i + 1][..i] == ws[..i];
  }

  lemma {:induction false} PrefixTail(ws: seq<real>, i: nat)
    requires 1 <= i <= |ws|
    ensures Prefix(ws, i) == ws[0] + Prefix(ws[1..], i - 1)
  {
    PrefixStep(ws, i - 1);
    if i > 1 {
      PrefixTail(ws, i - 1);
      PrefixStep(ws[1..], i - 2);
    } else {
      assert ws[..0] == [];
    }
  }

  lemma {:induction false} PrefixMonotone(ws: seq<real>, i: nat, j: nat)
    requires Positive(ws) && i <= j <= |ws|
    ensures Prefix(ws, i) <= Prefix(ws, j)
    ensures i < j ==> Prefix(ws, i) < Prefix(ws, j)
    decreases j
  {
    if i < j {
      PrefixMonotone(ws, i, j - 1);
      PrefixStep(ws, j - 1);
    }
  }

  /** `i` owns `target`: it lies in the interval between two prefix sums, open below and closed above. */
  predicate Owns(ws: seq<real>, i: nat, target: real)
    requires i < |ws|
  {
    (Prefix(ws, i) < target || (i == 0 && target == 0.0)) && target <= Prefix(ws, i + 1)
  }

  lemma {:induction false} PickOwns(ws: seq<real>, target: real)
    requires ws != [] && Positive(ws) && 0.0 <= target <= Total(ws)
    ensures Owns(ws, Pick(ws, target), target)
  {
    PrefixStep(ws, 0);
    assert ws[..0] == [] && ws[..|ws|] == ws;
    if |ws| == 1 {
      assert ws[..1] == ws;
    } else if target - ws[0] > 0.0 {
      var k := Pick(ws[1..], target - ws[0]);
      PrefixTail(ws, |ws|);
      assert ws[1..][..|ws| - 1] == ws[1..];
      PickOwns(ws[1..], target - ws[0]);
      PrefixTail(ws, k + 1);
      PrefixTail(ws, k + 2);
    }
  }

  /**
   The choice is exact: with positive weights, an index is picked if and only if it owns
   the target. Its interval is as long as its weight, and the intervals fill the range,
   so the final fallback is never needed.
   */
  lemma PickExact(ws: seq<real>, target: real, i: nat)
    requires ws != [] && Positive(ws) && 0.0 <= target <= Total(ws) && i < |ws|
    ensures Pick(ws, target) == i <==> Owns(ws, i, target)
    ensures Prefix(ws, i + 1) - Prefix(ws, i) == ws[i]
    ensures Prefix(ws, 0) == 0.0 && Prefix(ws, |ws|) == Total(ws)
  {
    PickOwns(ws, target);
    PrefixStep(ws, i);
    assert ws[..0] == [] && ws[..|ws|] == ws;
    var k := Pick(ws, target);
    if i < k {
      PrefixMonotone(ws, i + 1, k);
      PrefixMonotone(ws, 0, k);
    } else if k < i {
      PrefixMonotone(ws, k + 1, i);
      PrefixMonotone(ws, 0, i);
    }
  }

  lemma {:induction false} TotalPositive(ws: seq<real>)
    requires ws != [] && Positive(ws)
    ensures Total(ws) > 0.0
  {
    if |ws| > 1 {
      TotalPositive(ws[..|ws| - 1]);
    } else {
      assert ws[..0] == [];
    }
  }

  function Scale(draw: real, total: real): real {
    draw * total
  }

  /** The draw from [0, 1) scaled to the total weight. */
  function Target(ws: seq<real>, draw: real): real {
    Scale(draw, Total(ws))
  }

  lemma ScaledWithin(draw: real, total: real)
    requires 0.0 <= draw < 1.0 && 0.0 < total
    ensures 0.0 <= Scale(draw, total) < total
  {
    assert (1.0 - draw) * total > 0.0;
  }

  /** The pick as the code makes it, running target and both fallbacks included. */
  method WeightedPick(ws: seq<real>, draw: real, uniform: nat) returns (i: nat)
    requires ws != [] && uniform < |ws|
    ensures i < |ws|
    ensures i == if Total(ws) <= 0.0 then uniform else Pick(ws, Target(ws, draw))
  {
    var total := 0.0;
    for k := 0 to |ws|
      invariant total == Total(ws[..k])
    {
      assert ws[..k + 1][..k] == ws[..k];
      total := total + ws[k];
    }
    assert ws[..|ws|] == ws;
    if total <= 0.0 {
      return uniform;
    }
    var target := Scale(draw, total);
    ghost var picked := Pick(ws, Target(ws, draw));
    assert ws[0..] == ws;
    for k := 0 to |ws|
      invariant k < |ws| ==> picked == k + Pick(ws[k..], target)
      invariant k == |ws| ==> picked == |ws| - 1
    {
      assert ws[k..][1..] == ws[k + 1..] && ws[k..][0] == ws[k];
      target := target - ws[k];
      if target <= 0.0 {
        return k;
      }
    }
    return |ws| - 1;
  }

  // ----- Candidates and weights -----

  const HOUR_NS := 3_600_000_000_000.0

  /** Idle time raises the weight, a poor success rate lowers it, down to a fifth. */
  function Weight(s: State, now: Instant): real {
    var idle := 1.0 + if s.lastUsed == ZERO_TIME then 0.0 else (now - s.lastUsed) as real / HOUR_NS;
    var w := if s.reqCount > 0 then
               var rate := s.okCount as real / s.reqCount as real;
               idle * (if rate < 0.2 then 0.2 else rate)
             else idle;
    if w <= 0.0 then 0.000001 else w
  }

  function Candidates(states: States, order: seq<string>, now: Instant): (cands: seq<string>)
    ensures forall id :: id in cands <==> id in order && id in states && Healthy(states[id], now)
  {
    if order == [] then []
    else
      var n := |order| - 1;
      Candidates(states, order[..n], now)
      + if order[n] in states && Healthy(states[order[n]], now) then [order[n]] else []
  }

  function Weights(states: States, cands: seq<string>, now: Instant): (ws: seq<real>)
    requires forall id :: id in cands ==> id in states
    ensures |ws| == |cands| && Positive(ws)
    ensures forall k :: 0 <= k < |cands| ==> cands[k] in states && ws[k] == Weight(states[cands[k]], now)
  {
    if cands == [] then []
    else
      var n := |cands| - 1;
      assert cands[n] in cands && cands == cands[..n] + [cands[n]];
      Weights(states, cands[..n], now) + [Weight(states[cands[n]], now)]
  }

  /** The index picked among the candidates. */
  function ChosenIndex(states: States, cands: seq<string>, now: Instant, draw: real): (i: nat)
    requires cands != [] && forall id :: id in cands ==> id in states
    ensures i < |cands|
  {
    var ws := Weights(states, cands, now);
    Pick(ws, Target(ws, draw))
  }

  /** The locked step of a selection: none if no account is healthy. */
  function Choose(a: Accounts, now: Instant, draw: real): Option<string> {
    var cands := Candidates(a.states, a.order, now);
    if cands == [] then None else Some(cands[ChosenIndex(a.states, cands, now, draw)])
  }

  ghost predicate HealthyIn(a: Accounts, id: string, now: Instant) {
    id in a.states && Healthy(a.states[id], now)
  }

  /** The locked step is sound and complete. */
  lemma ChooseSound(a: Accounts, now: Instant, draw: real)
    requires Consistent(a)
    ensures Choose(a, now, draw) == None <==> forall id :: !HealthyIn(a, id, now)
    ensures Choose(a, now, draw).Some? ==> HealthyIn(a, Choose(a, now, draw).value, now)
  {
    var cands := Candidates(a.states, a.order, now);
    hide Candidates, ChosenIndex, Healthy, Ordering.Sorted;
    if cands != [] {
      var id := cands[ChosenIndex(a.states, cands, now, draw)];
      assert id in cands;
      assert HealthyIn(a, id, now);
    }
  }

  /**
   Which draws choose which account: the k-th candidate is chosen exactly when the draw,
   scaled to the total weight, falls in its own interval, of length its weight.
   */
  lemma ChooseExact(a: Accounts, now: Instant, draw: real, k: nat)
    requires Consistent(a) && 0.0 <= draw < 1.0
    requires k < |Candidates(a.states, a.order, now)|
    ensures var cands := Candidates(a.states, a.order, now);
            var ws := Weights(a.states, cands, now);
            && (Choose(a, now, draw) == Some(cands[k]) <==> Owns(ws, k, Target(ws, draw)))
            && Prefix(ws, k + 1) - Prefix(ws, k) == Weight(a.states[cands[k]], now)
  {
    hide Candidates, Weights, Total, Scale, Weight, Owns, Prefix, Pick, Healthy, Ordering.Sorted;
    var cands := Candidates(a.states, a.order, now);
    var ws := Weights(a.states, cands, now);
    TotalPositive(ws);
    ScaledWithin(draw, Total(ws));
    PickExact(ws, Target(ws, draw), k);
    CandidatesDistinct(a.states, a.order, now);
    var i := ChosenIndex(a.states, cands, now, draw);
    assert i < k ==> cands[i] != cands[k];
    assert k < i ==> cands[k] != cands[i];
  }

  /** Every healthy account is chosen by some draw: the one in the middle of its interval. */
  lemma CanBeChosen(a: Accounts, now: Instant, id: string) returns (draw: real)
    requires Consistent(a) && HealthyIn(a, id, now)
    ensures 0.0 <= draw < 1.0 && Choose(a, now, draw) == Some(id)
  {
    var cands := Candidates(a.states, a.order, now);
    assert id in cands;
    var k :| 0 <= k < |cands| && cands[k] == id;
    var ws := Weights(a.states, cands, now);
    hide Candidates, Weights, Weight, Choose, Pick, Healthy, Ordering.Sorted;
    draw := MiddleDraw(ws, k);
    ChooseExact(a, now, draw, k);
  }

  lemma MiddleDraw(ws: seq<real>, k: nat) returns (draw: real)
    requires Positive(ws) && k < |ws|
    ensures 0.0 <= draw < 1.0 && Owns(ws, k, Target(ws, draw))
  {
    var low, high, total := Prefix(ws, k), Prefix(ws, k + 1), Total(ws);
    PrefixMonotone(ws, 0, k);
    PrefixMonotone(ws, k, k + 1);
    PrefixMonotone(ws, k + 1, |ws|);
    assert ws[..0] == [] && ws[..|ws|] == ws;
    draw := Fraction((low + high) / 2.0, total);
  }

  lemma Fraction(target: real, total: real) returns (draw: real)
    requires 0.0 <= target < total
    ensures 0.0 <= draw < 1.0 && Scale(draw, total) == target
  {
    draw := target / total;
  }

  /** The candidates are the healthy accounts in the order of the index. */
  lemma {:induction false} CandidatesInOrder(states: States, order: seq<string>, now: Instant)
    requires Ordering.Sorted(order)
    ensures Ordering.Sorted(Candidates(states, order, now))
  {
    if order != [] {
      var n := |order| - 1;
      CandidatesInOrder(states, order[..n], now);
      var before := Candidates(states, order[..n], now);
      hide Healthy;
      forall k | 0 <= k < |before| ensures Ordering.Less(before[k], order[n]) {
        assert before[k] in order[..n];
      }
    }
  }

  lemma {:induction false} CandidatesDistinct(states: States, order: seq<string>, now: Instant)
    requires Ordering.Sorted(order)
    ensures forall i, j :: 0 <= i < j < |Candidates(states, order, now)| ==>
              Candidates(states, order, now)[i] != Candidates(states, order, now)[j]
  {
    if order != [] {
      var n := |order| - 1;
      CandidatesDistinct(states, order[..n], now);
      var front := Candidates(states, order[..n], now);
      assert forall j :: 0 <= j < |front| ==> front[j] in order[..n];
      assert order[n] !in order[..n] by {
        if order[n] in order[..n] {
          var j :| 0 <= j < n && order[j] == order[n];
          Ordering.LessTotal(order[j], order[n]);
        }
      }
    }
  }

  /** With a monotone clock no weight falls below a fifth, so its lower guard is never needed. */
  lemma WeightAtLeastAFifth(s: State, now: Instant)
    requires s.lastUsed <= now && 0 <= s.okCount <= s.reqCount
    ensures Weight(s, now) >= 0.2
  {
    var idle := 1.0 + if s.lastUsed == ZERO_TIME then 0.0 else (now - s.lastUsed) as real / HOUR_NS;
    assert idle >= 1.0;
    if s.reqCount > 0 {
      var rate := s.okCount as real / s.reqCount as real;
      var factor := if rate < 0.2 then 0.2 else rate;
      assert idle * factor >= 1.0 * factor;
    }
  }

  /** Idle time and success both pay: an account used no later and no less successful weighs at least as much. */
  lemma WeightMonotone(s: State, t: State, now: Instant)
    requires s.reqCount == t.reqCount > 0 && 0 <= s.okCount <= t.okCount <= t.reqCount
    requires ZERO_TIME < t.lastUsed <= s.lastUsed <= now
    ensures Weight(s, now) <= Weight(t, now)
  {
    var idleS := 1.0 + (now - s.lastUsed) as real / HOUR_NS;
    var idleT := 1.0 + (now - t.lastUsed) as real / HOUR_NS;
    assert 1.0 <= idleS <= idleT;
    var rateS, rateT := s.okCount as real / s.reqCount as real, t.okCount as real / t.reqCount as real;
    RatioMonotone(s.okCount as real, t.okCount as real, s.reqCount as real);
    var factorS, factorT := if rateS < 0.2 then 0.2 else rateS, if rateT < 0.2 then 0.2 else rateT;
    ProductMonotone(idleS, idleT, factorS, factorT);
  }

  /** Nanoseconds since the account was last used; none if it never was. */
  function IdleOf(s: State, now: Instant): int {
    if s.lastUsed == 0 then 0 else now - s.lastUsed
  }

  /**
   What weights are worth: an hour of idling counts as much again as an account that is not
   idle, and all of it is scaled by the rate of success, but by a fifth at least.
   */
  lemma WeightExact(s: State, now: Instant)
    requires IdleOf(s, now) >= 0 && s.reqCount >= 0
    ensures s.reqCount == 0 ==> Weight(s, now) == 1.0 + IdleOf(s, now) as real / 3_600_000_000_000.0
    ensures s.reqCount > 0 && 5 * s.okCount >= s.reqCount ==>
              Weight(s, now) ==
              (1.0 + IdleOf(s, now) as real / 3_600_000_000_000.0) * (s.okCount as real / s.reqCount as real)
    ensures s.reqCount > 0 && 5 * s.okCount < s.reqCount ==>
              Weight(s, now) == (1.0 + IdleOf(s, now) as real / 3_600_000_000_000.0) * 0.2
  {
    var idle := 1.0 + IdleOf(s, now) as real / 3_600_000_000_000.0;
    assert idle >= 1.0;
    if s.reqCount > 0 {
      FifthIff(s.okCount, s.reqCount);
      var rate := s.okCount as real / s.reqCount as real;
      Above(idle, if rate < 0.2 then 0.2 else rate);
    }
  }

  lemma FifthIff(ok: int, req: int)
    requires req > 0
    ensures ok as real / req as real < 0.2 <==> 5 * ok < req
  {
    var rate := ok as real / req as real;
    assert rate * req as real == ok as real;
    if rate < 0.2 {
      Scaled(rate, 0.2, req as real);
    } else if rate > 0.2 {
      Scaled(0.2, rate, req as real);
    }
  }

  lemma Scaled(a: real, b: real, c: real)
    requires a < b && c > 0.0
    ensures a * c < b * c
  {
  }

  lemma Above(a: real, b: real)
    requires a >= 1.0 && b >= 0.2
    ensures a * b > 0.0
  {
  }

  lemma RatioMonotone(a: real, b: real, c: real)
    requires a <= b && c > 0.0
    ensures a / c <= b / c
  {
  }

  lemma ProductMonotone(a: real, b: real, x: real, y: real)
    requires 0.0 < a <= b && 0.0 < x <= y
    ensures 0.0 < a * x <= b * y
  {
    assert a * x <= b * x;
    assert b * x <= b * y;
  }
}
