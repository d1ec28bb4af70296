/** services/risk.py: the hysteresis counters of one series, and the risk row that carries them. */
module RiskStates {
  import opened Basics

  datatype Counters = Counters(riskCount: nat, healthyCount: nat, active: bool)

  const QUIET := Counters(0, 0, false)

  function Advance(s: Counters, risky: bool, successful: bool): Counters {
    if !successful then Counters(0, 0, s.active)
    else if risky then
      var count := s.riskCount + 1;
      Counters(count, 0, s.active || count >= 2)
    else
      var count := s.healthyCount + 1;
      Counters(0, count, s.active && count < 2)
  }

  /** What can happen to the counters: a round, an unobserved round, or an operator closing the risk. */
  datatype Round = Risky | Healthy | Unobserved | Closed

  function After(s: Counters, r: Round): Counters {
    match r
    case Risky => Advance(s, true, true)
    case Healthy => Advance(s, false, true)
    case Unobserved => Advance(s, false, false)
    case Closed => Counters(0, 0, false)
  }

  function Fold(rounds: seq<Round>): Counters {
    if rounds == [] then QUIET else After(Fold(rounds[..|rounds| - 1]), rounds[|rounds| - 1])
  }

  lemma {:induction false} FoldAppend(rounds: seq<Round>, r: Round)
    ensures Fold(rounds + [r]) == After(Fold(rounds), r)
  {
    assert (rounds + [r])[..|rounds|] == rounds;
  }

  /** Rounds `i - 1` and `i` are both `r`, with nothing between them. */
  predicate PairOf(rounds: seq<Round>, i: nat, r: Round) {
    1 <= i < |rounds| && rounds[i - 1] == r && rounds[i] == r
  }

  /** Position `i` settles the state: a pair of equal observed rounds, or a manual close. */
  predicate Decides(rounds: seq<Round>, i: nat) {
    || PairOf(rounds, i, Risky)
    || PairOf(rounds, i, Healthy)
    || (i < |rounds| && rounds[i] == Closed)
  }

  /** The reading of the state machine that does not mention counters. */
  ghost predicate LastDecisionIsRisky(rounds: seq<Round>) {
    exists i: nat :: PairOf(rounds, i, Risky) && forall j: nat | i < j :: !Decides(rounds, j)
  }

  lemma {:induction false} CountersMeanSuffix(rounds: seq<Round>)
    ensures var n, c := |rounds|, Fold(rounds);
            && (c.riskCount > 0 <==> n >= 1 && rounds[n - 1] == Risky)
            && (c.healthyCount > 0 <==> n >= 1 && rounds[n - 1] == Healthy)
            && (c.riskCount >= 2 <==> n >= 1 && PairOf(rounds, n - 1, Risky))
            && (c.healthyCount >= 2 <==> n >= 1 && PairOf(rounds, n - 1, Healthy))
            && (c.riskCount == 0 || c.healthyCount == 0)
  {
    if rounds != [] {
      CountersMeanSuffix(rounds[..|rounds| - 1]);
    }
  }

  /** The state is active exactly when the latest decision was a risky pair. */
  lemma {:induction false} HysteresisMeaning(rounds: seq<Round>)
    ensures Fold(rounds).active <==> LastDecisionIsRisky(rounds)
  {
    var n := |rounds|;
    if n != 0 {
      var front := rounds[..n - 1];
      HysteresisMeaning(front);
      CountersMeanSuffix(front);
      CountersMeanSuffix(rounds);
      forall j: nat | j != n - 1
        ensures Decides(rounds, j) <==> Decides(front, j)
        ensures PairOf(rounds, j, Risky) <==> PairOf(front, j, Risky)
      {}
      if Decides(rounds, n - 1) {
        if PairOf(rounds, n - 1, Risky) {
          assert forall j: nat | n - 1 < j :: !Decides(rounds, j);
        }
      } else {
        if LastDecisionIsRisky(front) {
          var i: nat :| PairOf(front, i, Risky) && forall j: nat | i < j :: !Decides(front, j);
          assert PairOf(rounds, i, Risky);
          assert forall j: nat | i < j :: !Decides(rounds, j);
        }
        if LastDecisionIsRisky(rounds) {
          var i: nat :| PairOf(rounds, i, Risky) && forall j: nat | i < j :: !Decides(rounds, j);
          assert Decides(rounds, i);
          assert PairOf(front, i, Risky);
          assert forall j: nat | i < j :: !Decides(front, j);
        }
      }
    }
  }

  predicate FlipsAt(rounds: seq<Round>, k: nat) {
    k < |rounds| && Fold(rounds[..k]).active != Fold(rounds[..k + 1]).active
  }

  lemma {:induction false} FlipNeedsPair(rounds: seq<Round>, k: nat)
    requires FlipsAt(rounds, k) && rounds[k] != Closed
    ensures PairOf(rounds, k, rounds[k]) && rounds[k] != Unobserved
    ensures Fold(rounds[..k + 1]).active <==> rounds[k] == Risky
  {
    assert rounds[..k + 1][..k] == rounds[..k];
    CountersMeanSuffix(rounds[..k]);
    CountersMeanSuffix(rounds[..k + 1]);
  }

  /** After any flip the next flip that is not an operator's close is at least two rounds later. */
  lemma FlipsAreApart(rounds: seq<Round>, j: nat, k: nat)
    requires FlipsAt(rounds, j) && FlipsAt(rounds, k) && j < k && rounds[k] != Closed
    ensures j + 2 <= k
  {
    if k == j + 1 {
      FlipNeedsPair(rounds, k);
      if rounds[j] != Closed {
        FlipNeedsPair(rounds, j);
      }
    }
  }

  /** The risk_evaluation_state row: `policy_version` is written once and plays no further part. */
  datatype RiskRow = RiskRow(
    counters: Counters,
    lastRun: Option<Uuid>,
    alertId: Option<Uuid>,
    alarmVersion: nat,
    version: nat)

  const NEW_ROW := RiskRow(QUIET, None, None, 0, 0)

  /** `_is_newest_run`; `slots` is the immutable scheduled_at column of the runs table. */
  predicate IsNewest(slots: map<Uuid, Time>, row: RiskRow, run: Uuid)
    requires run in slots
  {
    match row.lastRun
    case None => true
    case Some(last) => last !in slots || last == run || slots[last] < slots[run]
  }

  function RecordRound(row: RiskRow, run: Uuid, risky: bool): RiskRow {
    row.(counters := Advance(row.counters, risky, true), lastRun := Some(run), version := row.version + 1)
  }

  /** What every failure path does to the row. */
  function ResetCounters(row: RiskRow, run: Uuid): RiskRow {
    row.(counters := Counters(0, 0, row.counters.active), lastRun := Some(run), version := row.version + 1)
  }

  function CloseRow(row: RiskRow): RiskRow {
    row.(counters := Counters(0, 0, false), version := row.version + 1)
  }
}
