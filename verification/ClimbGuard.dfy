/** The count-to-infinity guard: a destination whose cost keeps rising is a lap
  * counter, not a path.
  */
module ClimbGuard {
  import opened Base

  const RATIO := 4
  const MIN_STEPS := 3

  datatype Verdict = Ok | Withdraw | Suppress

  /** `floor` is -1 until a cost has been seen. */
  datatype Guard = Guard(floor: int, steps: int, looping: bool)

  const FRESH := Guard(-1, 0, false)

  predicate Inflated(g: Guard, cost: int) { g.floor > 0 && cost / g.floor >= RATIO }

  function Judge(g: Guard, last: int, expected: int): (Guard, Verdict)
  {
    if expected >= INFINITY then (g, Ok)
    else if g.looping && Inflated(g, expected) then (g, Suppress)
    else
      var g0 := if g.looping then g.(looping := false, steps := 0) else g;
      var g1 := if last >= 0 && expected > last then g0.(steps := g0.steps + 1)
                else Guard(if g0.floor < 0 || expected < g0.floor then expected else g0.floor, 0, g0.looping);
      if Inflated(g1, expected) && g1.steps >= MIN_STEPS then (g1.(looping := true, steps := 0), Withdraw) else (g1, Ok)
  }

  /** flex_climb_is_loop, updating its three in/out parameters one by one. */
  method ClimbIsLoop(rttFloor: int, climbSteps: int, looping: bool, last: int, expected: int)
    returns (floor': int, steps': int, looping': bool, verdict: Verdict)
    ensures (Guard(floor', steps', looping'), verdict) == Judge(Guard(rttFloor, climbSteps, looping), last, expected)
  {
    floor', steps', looping' := rttFloor, climbSteps, looping;
    if expected >= INFINITY {
      return floor', steps', looping', Ok;
    }
    if looping' {
      if floor' > 0 && expected / floor' >= RATIO {
        return floor', steps', looping', Suppress;
      }
      looping' := false;
      steps' := 0;
    }
    if last >= 0 && expected > last {
      steps' := steps' + 1;
    } else {
      steps' := 0;
      if floor' < 0 || expected < floor' {
        floor' := expected;
      }
    }
    if floor' > 0 && steps' >= MIN_STEPS && expected / floor' >= RATIO {
      looping' := true;
      steps' := 0;
      return floor', steps', looping', Withdraw;
    }
    return floor', steps', looping', Ok;
  }

  // ----- runs of judged costs

  /** One judgement: the last advertised cost (-1 never, infinity withdrawn) and
      the cost now expected. */
  datatype Judgement = Judgement(last: int, expected: int)

  function After(js: seq<Judgement>): Guard
  {
    if js == [] then FRESH else Judge(After(js[..|js| - 1]), js[|js| - 1].last, js[|js| - 1].expected).0
  }

  function VerdictAt(js: seq<Judgement>, i: nat): Verdict
    requires i < |js|
  {
    Judge(After(js[..i]), js[i].last, js[i].expected).1
  }

  predicate Finite(j: Judgement) { 1 <= j.expected < INFINITY }

  /** Costs are positive, and a previous advertisement is never, a withdrawal, or a
      cost judged earlier in the run. */
  predicate Genuine(js: seq<Judgement>)
  {
    forall i :: 0 <= i < |js| ==>
      && 1 <= js[i].expected
      && (js[i].last == -1 || js[i].last >= INFINITY ||
          exists k :: 0 <= k < i && Finite(js[k]) && js[k].expected == js[i].last)
  }

  /** The cheapest finite cost among the judgements, or -1. */
  function Cheapest(js: seq<Judgement>): int
  {
    if js == [] then -1
    else
      var c, j := Cheapest(js[..|js| - 1]), js[|js| - 1];
      if Finite(j) && (c < 0 || j.expected < c) then j.expected else c
  }

  lemma {:induction false} CheapestIsMinimum(js: seq<Judgement>)
    ensures Cheapest(js) == -1 || exists i :: 0 <= i < |js| && Finite(js[i]) && js[i].expected == Cheapest(js)
    ensures forall i :: 0 <= i < |js| && Finite(js[i]) ==> 1 <= Cheapest(js) <= js[i].expected
  {
    if js != [] {
      var n := |js| - 1;
      CheapestIsMinimum(js[..n]);
      if exists i :: 0 <= i < n && Finite(js[..n][i]) && js[..n][i].expected == Cheapest(js[..n]) {
        var i :| 0 <= i < n && Finite(js[..n][i]) && js[..n][i].expected == Cheapest(js[..n]);
        assert Finite(js[i]) && js[i].expected == Cheapest(js[..n]);
      }
      forall i | 0 <= i < |js| && Finite(js[i]) ensures 1 <= Cheapest(js) <= js[i].expected {
        assert i < n ==> js[..n][i] == js[i];
      }
    }
  }

  lemma {:induction false} GenuinePrefix(js: seq<Judgement>, n: nat)
    requires Genuine(js) && n <= |js|
    ensures Genuine(js[..n])
  {
    forall i | 0 <= i < n
      ensures js[..n][i].last == -1 || js[..n][i].last >= INFINITY ||
              exists k :: 0 <= k < i && Finite(js[..n][k]) && js[..n][k].expected == js[..n][i].last
    {
      if !(js[i].last == -1 || js[i].last >= INFINITY) {
        var k :| 0 <= k < i && Finite(js[k]) && js[k].expected == js[i].last;
        assert js[..n][k] == js[k];
      }
    }
  }

  lemma {:induction false} InflatedIsFarUp(g: Guard, cost: int)
    requires g.floor >= 1 && cost >= 0
    ensures Inflated(g, cost) <==> cost >= 4 * g.floor
  {
  }

  /** One judgement moves the floor to the minimum of floor and cost. */
  lemma {:induction false} JudgeFloor(g: Guard, last: int, expected: int)
    requires g.floor == -1 || g.floor >= 1
    requires g.steps >= 0 && (g.looping ==> g.floor >= 1)
    requires 1 <= expected && (0 <= last < INFINITY ==> 1 <= g.floor <= last)
    ensures var h := Judge(g, last, expected).0;
            && h.floor == (if expected < INFINITY && (g.floor < 0 || expected < g.floor) then expected else g.floor)
            && h.steps >= 0 && (h.looping ==> h.floor >= 1)
  {
    hide Inflated;
    if g.floor >= 1 {
      InflatedIsFarUp(g, expected);
    }
  }

  /** In any genuine run the remembered floor is the running minimum of the finite
      costs: it is never forgotten, across withdrawals and suppressions too. */
  lemma {:induction false} FloorIsCheapest(js: seq<Judgement>)
    requires Genuine(js)
    ensures After(js).floor == Cheapest(js)
    ensures After(js).steps >= 0 && (After(js).looping ==> After(js).floor >= 1)
  {
    hide Judge;
    if js != [] {
      var n := |js| - 1;
      GenuinePrefix(js, n);
      FloorIsCheapest(js[..n]);
      CheapestIsMinimum(js[..n]);
      CheapestSign(js[..n]);
      var j := js[n];
      if j.last >= 0 && j.last < INFINITY {
        var k :| 0 <= k < n && Finite(js[k]) && js[k].expected == j.last;
        assert js[..n][k] == js[k];
      }
      JudgeFloor(After(js[..n]), j.last, j.expected);
    }
  }

  lemma {:induction false} CheapestSign(js: seq<Judgement>)
    ensures Cheapest(js) == -1 || Cheapest(js) >= 1
  {
    CheapestIsMinimum(js);
  }

  predicate Rise(j: Judgement) { Finite(j) && 0 <= j.last < j.expected }

  /** Judged at four times the cheapest cost seen, or more. */
  predicate FarUp(js: seq<Judgement>, i: nat)
    requires i < |js|
  {
    Finite(js[i]) && js[i].expected >= 4 * Cheapest(js[..i + 1])
  }

  /** How many of the judgements from `from` on let a cost through that stands at
      four times the floor or more. */
  function LetThrough(js: seq<Judgement>, from: nat, until: nat): nat
    requires from <= until <= |js|
  {
    if from == until then 0
    else LetThrough(js, from, until - 1) + (if FarUp(js, until - 1) && VerdictAt(js, until - 1) == Ok then 1 else 0)
  }

  lemma {:induction false} StepFloor(js: seq<Judgement>, i: nat)
    requires Genuine(js) && i < |js| && Finite(js[i])
    ensures After(js[..i]).floor == Cheapest(js[..i]) && After(js[..i + 1]).floor == Cheapest(js[..i + 1]) >= 1
    ensures js[..i + 1][..i] == js[..i]
    ensures After(js[..i + 1]) == Judge(After(js[..i]), js[i].last, js[i].expected).0
  {
    GenuinePrefix(js, i);
    GenuinePrefix(js, i + 1);
    FloorIsCheapest(js[..i]);
    FloorIsCheapest(js[..i + 1]);
    CheapestIsMinimum(js[..i + 1]);
    assert Finite(js[..i + 1][i]);
    assert js[..i + 1][..i] == js[..i];
  }

  /** Rises in a row at the end of the judgements from `from` on; infinite costs do not
      interrupt the row, any other finite cost ends it. */
  function RisesInRow(js: seq<Judgement>, from: nat, until: nat): nat
    requires from <= until <= |js|
  {
    if from == until then 0
    else if !Finite(js[until - 1]) then RisesInRow(js, from, until - 1)
    else if Rise(js[until - 1]) then RisesInRow(js, from, until - 1) + 1
    else 0
  }

  /** Counting starts from a guard that is open and has counted nothing. */
  predicate Resting(js: seq<Judgement>, from: nat)
    requires from <= |js|
  {
    !After(js[..from]).looping && After(js[..from]).steps == 0
  }

  predicate NoWithdrawal(js: seq<Judgement>, from: nat, until: nat)
    requires from <= until <= |js|
  {
    forall i :: from <= i < until ==> VerdictAt(js, i) != Withdraw
  }

  /** Until the first withdrawal the guard's step count is that row. */
  lemma {:induction false} StepsCountRises(js: seq<Judgement>, from: nat, until: nat)
    requires Genuine(js) && from <= until <= |js| && Resting(js, from) && NoWithdrawal(js, from, until)
    ensures !After(js[..until]).looping && After(js[..until]).steps == RisesInRow(js, from, until)
  {
    hide Genuine, Inflated;
    if from < until {
      var i := until - 1;
      StepsCountRises(js, from, i);
      assert js[..until][..i] == js[..i];
      assert VerdictAt(js, i) != Withdraw;
      PositiveCost(js, i);
    }
  }

  lemma {:induction false} PositiveCost(js: seq<Judgement>, i: nat)
    requires Genuine(js) && i < |js|
    ensures js[i].expected >= 1
  {
  }

  /** The guard withdraws exactly when a cost of four times the floor or more is the
      third rise in a row, or a later one. */
  lemma {:induction false} WithdrawsOnThirdRise(js: seq<Judgement>, from: nat, i: nat)
    requires Genuine(js) && from <= i < |js| && Resting(js, from) && NoWithdrawal(js, from, i)
    ensures VerdictAt(js, i) == Withdraw <==> FarUp(js, i) && RisesInRow(js, from, i + 1) >= 3
  {
    StepsCountRises(js, from, i);
    PositiveCost(js, i);
    if Finite(js[i]) {
      StepFloor(js, i);
      FarUpIsInflated(js, i);
    }
  }

  lemma {:induction false} FarUpIsInflated(js: seq<Judgement>, i: nat)
    requires Genuine(js) && i < |js| && Finite(js[i])
    ensures Inflated(After(js[..i + 1]), js[i].expected) <==> FarUp(js, i)
  {
    StepFloor(js, i);
    InflatedIsFarUp(After(js[..i + 1]), js[i].expected);
  }

  /** While finite costs only rise and nothing has been withdrawn, at most two costs of
      four times the floor or more are let through: the guard counts each rise. */
  lemma {:induction false} StretchLetsTwoThrough(js: seq<Judgement>, from: nat, until: nat)
    requires Genuine(js) && from <= until <= |js| && !After(js[..from]).looping && NoWithdrawal(js, from, until)
    requires forall i :: from <= i < until ==> Rise(js[i]) || js[i].expected >= INFINITY
    ensures !After(js[..until]).looping && After(js[..until]).steps >= 0
    ensures LetThrough(js, from, until) <= 2
    ensures LetThrough(js, from, until) >= 1 ==> LetThrough(js, from, until) <= After(js[..until]).steps
    decreases until
  {
    hide Genuine, Inflated, FarUp;
    GenuinePrefix(js, from);
    FloorIsCheapest(js[..from]);
    if from < until {
      var i := until - 1;
      StretchLetsTwoThrough(js, from, i);
      assert js[..until][..i] == js[..i];
      assert VerdictAt(js, i) != Withdraw;
      if Rise(js[i]) {
        FarUpIsInflated(js, i);
      } else {
        InfiniteIsNotFarUp(js, i);
      }
    }
  }

  lemma {:induction false} InfiniteIsNotFarUp(js: seq<Judgement>, i: nat)
    requires i < |js| && js[i].expected >= INFINITY
    ensures !FarUp(js, i)
  {
  }

  /** A cost that jumps to four times the floor and stays there. */
  function Plateau(n: nat): (js: seq<Judgement>)
    ensures |js| == n + 2
  {
    [Judgement(-1, 1), Judgement(1, 4)] + seq(n, _ => Judgement(4, 4))
  }

  /** The rises have to be strict: an equal cost starts the count again, so costs that
      stay at four times the floor are let through without end. */
  lemma {:induction false} PlateauIsLetThrough(n: nat)
    ensures Genuine(Plateau(n)) && NoWithdrawal(Plateau(n), 0, n + 2)
    ensures After(Plateau(n)) == Guard(1, if n == 0 then 1 else 0, false)
    ensures LetThrough(Plateau(n), 0, n + 2) == n + 1
  {
    hide After, LetThrough, NoWithdrawal, Genuine;
    var js := Plateau(n);
    if n == 0 {
      JumpToFour();
    } else {
      PlateauIsLetThrough(n - 1);
      assert js[..n + 1] == Plateau(n - 1);
      PlateauGenuine(n);
      SameVerdicts(Plateau(n - 1), js, n + 1);
      StaysAtFour(js, n + 1);
    }
  }

  lemma {:induction false} PlateauGenuine(n: nat)
    ensures Genuine(Plateau(n))
  {
    var js := Plateau(n);
    assert Finite(js[0]) && js[0].expected == 1 && Finite(js[1]) && js[1].expected == 4;
  }

  lemma {:induction false} JumpToFour()
    ensures var js := Plateau(0);
            && Genuine(js) && NoWithdrawal(js, 0, 2) && After(js) == Guard(1, 1, false) && LetThrough(js, 0, 2) == 1
  {
    var js := Plateau(0);
    PlateauGenuine(0);
    assert js[..0] == [] && js[..1][..0] == [] && js[..2] == js && js[..2][..1] == js[..1] && js[..1] == [js[0]];
    assert After(js[..1]) == Guard(1, 0, false);
    assert Cheapest(js[..1]) == 1 && Cheapest(js[..2]) == 1;
  }

  lemma {:induction false} SameVerdicts(ks: seq<Judgement>, js: seq<Judgement>, n: nat)
    requires n <= |ks| <= |js| && js[..|ks|] == ks
    ensures LetThrough(js, 0, n) == LetThrough(ks, 0, n)
    ensures NoWithdrawal(js, 0, n) <==> NoWithdrawal(ks, 0, n)
  {
    hide Judge;
    forall i | 0 <= i < n ensures VerdictAt(js, i) == VerdictAt(ks, i) {
      assert js[..i] == ks[..i];
    }
    if n > 0 {
      SameVerdicts(ks, js, n - 1);
      assert js[..n] == ks[..n];
    }
  }

  lemma {:induction false} StaysAtFour(js: seq<Judgement>, i: nat)
    requires Genuine(js) && i == |js| - 1 && js[i] == Judgement(4, 4) && NoWithdrawal(js, 0, i)
    requires After(js[..i]).floor == 1 && !After(js[..i]).looping
    ensures After(js) == Guard(1, 0, false) && NoWithdrawal(js, 0, i + 1)
    ensures LetThrough(js, 0, i + 1) == LetThrough(js, 0, i) + 1
  {
    hide Genuine, After, Cheapest;
    StepFloor(js, i);
    assert js[..i + 1] == js;
  }

  /** Once withdrawn, every finite cost is suppressed until one drops below four
      times the floor; the floor does not move meanwhile. */
  lemma {:induction false} SilentUntilCredible(js: seq<Judgement>, w: nat, n: nat)
    requires Genuine(js) && w < n <= |js| && VerdictAt(js, w) == Withdraw
    requires forall i :: w < i < n && Finite(js[i]) ==> js[i].expected >= 4 * Cheapest(js[..w + 1])
    ensures After(js[..n]).looping && After(js[..n]).floor == Cheapest(js[..w + 1]) >= 1
    ensures forall i :: w < i < n && Finite(js[i]) ==> VerdictAt(js, i) == Suppress
  {
    hide After, Cheapest, Inflated;
    SilentRun(js, w, n);
  }

  lemma {:induction false} SilentRun(js: seq<Judgement>, w: nat, n: nat)
    requires Genuine(js) && w < n <= |js| && Finite(js[w]) && VerdictAt(js, w) == Withdraw
    requires forall i :: 0 <= i < n ==> js[i].expected >= 1
    requires forall i :: w < i < n && Finite(js[i]) ==> js[i].expected >= 4 * Cheapest(js[..w + 1])
    ensures After(js[..n]).looping && After(js[..n]).floor == Cheapest(js[..w + 1]) >= 1
    ensures forall i :: w < i < n && Finite(js[i]) ==> VerdictAt(js, i) == Suppress
    decreases n
  {
    hide Judge, Genuine, Cheapest;
    StepFloor(js, w);
    JudgeLatches(After(js[..w]), js[w].last, js[w].expected);
    if n > w + 1 {
      var i := n - 1;
      SilentRun(js, w, i);
      assert js[..n][..i] == js[..i] && js[..n][i] == js[i];
      JudgeStaysSilent(After(js[..i]), js[i].last, js[i].expected);
    }
  }

  lemma {:induction false} JudgeLatches(g: Guard, last: int, expected: int)
    requires Judge(g, last, expected).1 == Withdraw
    ensures Judge(g, last, expected).0.looping && expected < INFINITY
  {
  }

  lemma {:induction false} JudgeStaysSilent(g: Guard, last: int, expected: int)
    requires g.looping && g.floor >= 1 && (1 <= expected < INFINITY ==> expected >= 4 * g.floor) && expected >= 1
    ensures Judge(g, last, expected) == (g, if expected >= INFINITY then Ok else Suppress)
  {
    InflatedIsFarUp(g, expected);
  }

  /** A cost below four times the floor ends the silence. */
  lemma {:induction false} CredibleCostSpeaks(js: seq<Judgement>, i: nat)
    requires Genuine(js) && i < |js| && Finite(js[i]) && After(js[..i]).looping
    requires js[i].expected < 4 * After(js[..i]).floor
    ensures VerdictAt(js, i) == Ok && !After(js[..i + 1]).looping
  {
    StepFloor(js, i);
    GenuinePrefix(js, i);
    FloorIsCheapest(js[..i]);
    InflatedIsFarUp(After(js[..i]), js[i].expected);
  }

  /** While the guard is shut no rises are remembered. */
  lemma {:induction false} ShutForgetsRises(js: seq<Judgement>)
    ensures After(js).looping ==> After(js).steps == 0
  {
    hide Inflated;
    if js != [] { ShutForgetsRises(js[..|js| - 1]); }
  }
}
