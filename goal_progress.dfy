/** Goal progress on the dashboard. Every goal is measured against the same
    pooled savings total (all rows in the savings category), not against
    deposits of its own. */
module GoalProgress {
  import opened LedgerTypes
  import opened Aggregates

  /** The progress percentage: savings / target * 100 for a positive target,
      0 otherwise. It is not clamped, so it exceeds 100 once the savings pass
      the target. */
  function Progress(savings: int, target: int): (p: real)
    ensures target > 0 ==> p * (target as real) == (savings as real) * 100.0
    ensures target <= 0 ==> p == 0.0
  {
    if target > 0 then (savings as real / target as real) * 100.0 else 0.0
  }

  /** The progress-bar fill: min(progress / 100, 1.0). */
  function Fill(p: real): (f: real)
    ensures f <= 1.0
    ensures p >= 0.0 ==> f >= 0.0
    ensures f == 1.0 <==> p >= 100.0
    ensures p < 100.0 ==> f * 100.0 == p
  {
    if p / 100.0 <= 1.0 then p / 100.0 else 1.0
  }

  /** The progress of one goal: its target against the pooled savings. It
      reaches 100 exactly when the pool reaches a positive target, and is
      never negative while the amounts are positive. */
  function GoalPercent(ts: seq<Transaction>, g: Goal): (p: real)
    ensures g.target > 0 ==> (p >= 100.0 <==> SavingsPool(ts) >= g.target)
    ensures g.target <= 0 ==> p == 0.0
    ensures PositiveAmounts(ts) ==> p >= 0.0
  {
    if g.target > 0 then
      ProgressSign(SavingsPool(ts), 0, g.target);
      Progress(SavingsPool(ts), g.target)
    else
      Progress(SavingsPool(ts), g.target)
  }

  /** The progress shown for each registered goal. Because the savings are
      pooled, two goals with the same target always show the same progress. */
  function ProgressBoard(ts: seq<Transaction>, goals: map<string, Goal>): (board: map<string, real>)
    ensures board.Keys == goals.Keys
    ensures forall a, b :: a in goals && b in goals && goals[a].target == goals[b].target ==> board[a] == board[b]
  {
    map name | name in goals :: GoalPercent(ts, goals[name])
  }

  /** Multiplying by a positive number keeps the sign. */
  lemma PositiveFactor(x: real, y: real)
    requires y > 0.0
    ensures x * y >= 0.0 <==> x >= 0.0
    ensures x * y > 0.0 <==> x > 0.0
  {
  }

  /** For a positive target the percentage is non-negative exactly when the
      savings are, and reaches 100 exactly when the savings reach the target;
      it grows with the savings. */
  lemma ProgressSign(s1: int, s2: int, target: int)
    requires target > 0
    ensures Progress(s1, target) >= 0.0 <==> s1 >= 0
    ensures Progress(s1, target) >= 100.0 <==> s1 >= target
    ensures Progress(s1, target) <= Progress(s2, target) <==> s1 <= s2
    ensures Progress(s1, target) < Progress(s2, target) <==> s1 < s2
  {
    var p1, p2, tr := Progress(s1, target), Progress(s2, target), target as real;
    PositiveFactor(p1, tr);
    assert (p1 - 100.0) * tr == (s1 as real - tr) * 100.0;
    PositiveFactor(p1 - 100.0, tr);
    assert (p2 - p1) * tr == (s2 as real - s1 as real) * 100.0;
    PositiveFactor(p2 - p1, tr);
  }

  /** Every bar's fill lies in [0, 1], since stored amounts are positive. */
  lemma FillInUnitRange(ts: seq<Transaction>, goals: map<string, Goal>)
    requires AllWellFormed(ts)
    ensures forall name :: name in ProgressBoard(ts, goals) ==>
      0.0 <= Fill(ProgressBoard(ts, goals)[name]) <= 1.0
  {
    assert PositiveAmounts(ts);
    forall name | name in goals && goals[name].target > 0 ensures GoalPercent(ts, goals[name]) >= 0.0 {
      ProgressSign(SavingsPool(ts), 0, goals[name].target);
    }
  }

  /** A goal's bar is full exactly when the pooled savings reach its target. */
  lemma GoalReached(ts: seq<Transaction>, g: Goal)
    requires g.target > 0
    ensures Fill(GoalPercent(ts, g)) == 1.0 <==> SavingsPool(ts) >= g.target
  {
    ProgressSign(SavingsPool(ts), 0, g.target);
  }

  /** Adding a row with a non-negative amount never lowers any goal's
      progress or fill; a positive savings row raises the progress of every
      goal with a positive target. */
  lemma ProgressNeverDecreases(ts: seq<Transaction>, t: Transaction, g: Goal)
    requires t.amount >= 0
    ensures GoalPercent(ts, g) <= GoalPercent(ts + [t], g)
    ensures Fill(GoalPercent(ts, g)) <= Fill(GoalPercent(ts + [t], g))
    ensures t.category == SavingsCategory && t.amount > 0 && g.target > 0 ==>
      GoalPercent(ts, g) < GoalPercent(ts + [t], g)
  {
    SavingsPoolAppend(ts, t);
    if g.target > 0 {
      ProgressSign(SavingsPool(ts), SavingsPool(ts + [t]), g.target);
    }
  }
}
