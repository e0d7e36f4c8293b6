/** Whole runs of the decision policy: how long they can last and what Peak they end with. */
module PolicyRuns {
  import opened Records
  import opened Policy

  /** The EVALUATE snapshot the controller builds for a candidate: everything the policy
      carries forward is that of the snapshot the iteration began with. */
  function Entering(s: StateSnapshot, o: Observation): StateSnapshot {
    s.(state := Evaluate, candidate := Some(o.checkpoint), candidateScore := Some(o.score))
  }

  /** Equal in everything the policy reads or carries forward. */
  predicate SameProgress(a: StateSnapshot, b: StateSnapshot) {
    && a.run == b.run && a.state == b.state && a.iteration == b.iteration
    && a.active == b.active && a.peak == b.peak && a.peakScore == b.peakScore
    && a.plateau == b.plateau && a.totalCost == b.totalCost && a.stop == b.stop
  }

  ghost predicate Continues(limits: Limits, s: StateSnapshot, o: Observation, s': StateSnapshot) {
    && s.state == Diagnose
    && var verdict := EvaluateCandidate(limits, Entering(s, o), o);
    && verdict.Decided? && verdict.step.snapshots != []
    && SameProgress(FinalOf(verdict.step), s')
  }

  /** A run: each candidate is judged in the state the previous one led to. */
  ghost predicate IsPolicyRun(limits: Limits, states: seq<StateSnapshot>, obs: seq<Observation>) {
    && |states| == |obs| + 1
    && states[0].peakScore.Some? && states[0].plateau == 0
    && forall i :: 0 <= i < |obs| ==> Continues(limits, states[i], obs[i], states[i + 1])
  }

  lemma ContinuesMoves(limits: Limits, s: StateSnapshot, o: Observation, s': StateSnapshot)
    requires Continues(limits, s, o, s')
    ensures s.peakScore.Some? && s'.peakScore.Some? && Moves(limits, s, o, s')
  {
    hide EvaluateCandidate;
    assert s.peakScore.Some? by { DecidedHasPeak(limits, Entering(s, o), o); }
    EvaluationMoves(limits, Entering(s, o), o);
  }

  lemma DecidedHasPeak(limits: Limits, s: StateSnapshot, o: Observation)
    requires EvaluateCandidate(limits, s, o).Decided?
    ensures s.peakScore.Some?
  {
  }

  /** A run seen only through how the accepted state moves. */
  ghost predicate MovesRun(limits: Limits, states: seq<StateSnapshot>, obs: seq<Observation>) {
    && |states| == |obs| + 1
    && (forall i :: 0 <= i < |states| ==> states[i].peakScore.Some?)
    && states[0].plateau == 0
    && (forall i :: 0 <= i < |obs| ==> states[i].state == Diagnose && Moves(limits, states[i], obs[i], states[i + 1]))
  }

  /** Every run of the policy is one. */
  lemma RunMoves(limits: Limits, states: seq<StateSnapshot>, obs: seq<Observation>)
    requires IsPolicyRun(limits, states, obs)
    ensures MovesRun(limits, states, obs) && |states| == |obs| + 1
    ensures states[0].peakScore.Some? && states[|obs|].peakScore.Some?
  {
    hide Continues, Moves;
    forall i | 0 <= i < |states| ensures states[i].peakScore.Some? {
      if i > 0 { ContinuesMoves(limits, states[i - 1], obs[i - 1], states[i]); }
    }
    forall i | 0 <= i < |obs| ensures states[i].state == Diagnose {
      StartsInDiagnose(limits, states[i], obs[i], states[i + 1]);
    }
    forall i | 0 <= i < |obs| ensures Moves(limits, states[i], obs[i], states[i + 1]) {
      ContinuesMoves(limits, states[i], obs[i], states[i + 1]);
    }
  }

  lemma StartsInDiagnose(limits: Limits, s: StateSnapshot, o: Observation, s': StateSnapshot)
    requires Continues(limits, s, o, s')
    ensures s.state == Diagnose
  {
    hide EvaluateCandidate;
  }

  ghost function Disposed(limits: Limits, states: seq<StateSnapshot>, obs: seq<Observation>, i: nat): Action
    requires MovesRun(limits, states, obs) && i < |obs|
  {
    Disposition(limits, states[i], obs[i])
  }

  /** How many of the first n candidates were promoted. */
  ghost function Promotions(limits: Limits, states: seq<StateSnapshot>, obs: seq<Observation>, n: nat): nat
    requires MovesRun(limits, states, obs) && n <= |obs|
  {
    if n == 0 then 0
    else Promotions(limits, states, obs, n - 1) + if Disposed(limits, states, obs, n - 1) == Promote then 1 else 0
  }

  /** How many of the first n candidates were decided, that is, not aborted over budget. */
  ghost function Decisions(limits: Limits, states: seq<StateSnapshot>, obs: seq<Observation>, n: nat): nat
    requires MovesRun(limits, states, obs) && n <= |obs|
  {
    if n == 0 then 0
    else Decisions(limits, states, obs, n - 1) + if Disposed(limits, states, obs, n - 1) != Abort then 1 else 0
  }

  /** What n promotions gain at least, and how long n promotions let a run go on. */
  function Gain(limits: Limits, n: nat): real {
    n as real * limits.minImprovement
  }

  function Patience(limits: Limits, n: nat): nat {
    n * limits.patience
  }

  lemma GainsAre(limits: Limits, n: nat)
    ensures Gain(limits, n) == n as real * limits.minImprovement && Patience(limits, n) == n * limits.patience
  {
  }

  /** Where a run stands: its gain, its pace, and how many candidates were decided. */
  predicate Paced(limits: Limits, n: nat, start: real, s: StateSnapshot, promoted: nat, decided: nat) {
    && s.peakScore.Some?
    && start + Gain(limits, promoted) <= s.peakScore.value
    && decided <= Patience(limits, promoted) + s.plateau
    && s.plateau <= limits.patience
    && (s.state == Diagnose ==> s.plateau < limits.patience)
    && (decided == n || (decided + 1 == n && s.state == Aborted))
  }

  lemma OneMorePromotion(promoted: nat, decided: nat, patience: nat, gain: real, plateau: nat)
    requires decided <= promoted * patience + plateau && plateau < patience
    ensures decided + 1 <= (promoted + 1) * patience
    ensures (promoted + 1) as real * gain == promoted as real * gain + gain
  {
    assert (promoted + 1) * patience == promoted * patience + patience;
  }

  lemma PaceKept(
    limits: Limits, n: nat, start: real, s: StateSnapshot, o: Observation, s': StateSnapshot,
    promoted: nat, decided: nat)
    requires Paced(limits, n, start, s, promoted, decided) && s.state == Diagnose
    requires Moves(limits, s, o, s')
    ensures var action := Disposition(limits, s, o);
      Paced(limits, n + 1, start, s',
            promoted + (if action == Promote then 1 else 0), decided + (if action != Abort then 1 else 0))
  {
    OneMorePromotion(promoted, decided, limits.patience, limits.minImprovement, s.plateau);
  }

  lemma {:induction false} RunIsPaced(limits: Limits, states: seq<StateSnapshot>, obs: seq<Observation>, n: nat)
    requires MovesRun(limits, states, obs) && n <= |obs|
    ensures Paced(limits, n, states[0].peakScore.value, states[n],
                  Promotions(limits, states, obs, n), Decisions(limits, states, obs, n))
  {
    hide Moves, Disposition;
    if n == 0 {
      assert states[0].plateau == 0;
    } else {
      hide Paced;
      RunIsPaced(limits, states, obs, n - 1);
      PaceKept(limits, n - 1, states[0].peakScore.value, states[n - 1], obs[n - 1], states[n],
        Promotions(limits, states, obs, n - 1), Decisions(limits, states, obs, n - 1));
    }
  }

  /** A run with L decided candidates and P promotions has L <= (P + 1) * plateau_patience,
      and its Peak is at least initial + P * min_improvement. At most the last candidate is
      aborted, and no run goes on after its patience is used up. */
  lemma RunLengthBound(limits: Limits, states: seq<StateSnapshot>, obs: seq<Observation>)
    requires IsPolicyRun(limits, states, obs)
    ensures MovesRun(limits, states, obs) && |states| == |obs| + 1
    ensures states[0].peakScore.Some? && states[|obs|].peakScore.Some?
    ensures var n := |obs|;
      var promoted, decided := Promotions(limits, states, obs, n), Decisions(limits, states, obs, n);
      && n - 1 <= decided <= n
      && decided <= (promoted + 1) * limits.patience
      && states[0].peakScore.value + promoted as real * limits.minImprovement <= states[n].peakScore.value
  {
    hide *;
    RunMoves(limits, states, obs);
    var promoted, decided := Promotions(limits, states, obs, |obs|), Decisions(limits, states, obs, |obs|);
    RunIsPaced(limits, states, obs, |obs|);
    GainsAre(limits, promoted);
    GainsAre(limits, promoted + 1);
    PaceBounds(limits, |obs|, states[0].peakScore.value, states[|obs|], promoted, decided);
  }

  lemma PaceBounds(limits: Limits, n: nat, start: real, s: StateSnapshot, promoted: nat, decided: nat)
    requires Paced(limits, n, start, s, promoted, decided)
    ensures s.peakScore.Some? && n - 1 <= decided <= n
    ensures decided <= Patience(limits, promoted + 1)
    ensures start + Gain(limits, promoted) <= s.peakScore.value
  {
    assert (promoted + 1) * limits.patience == promoted * limits.patience + limits.patience;
  }

  lemma ScalePace(decided: nat, promoted: nat, patience: nat, gain: real, room: real)
    requires decided <= (promoted + 1) * patience && 0.0 < gain
    requires promoted as real * gain <= room
    ensures decided as real * gain <= (room + gain) * patience as real
  {
    var p, k := promoted as real, patience as real;
    assert decided as real <= (p + 1.0) * k by {
      assert ((promoted + 1) * patience) as real == (promoted + 1) as real * k;
    }
    calc <= {
      decided as real * gain;
      ((p + 1.0) * k) * gain;
      { assert ((p + 1.0) * k) * gain == (p * gain + gain) * k; }
      (p * gain + gain) * k;
      (room + gain) * k;
    }
  }

  lemma ScaleDown(few: int, many: int, gain: real)
    requires few <= many && 0.0 < gain
    ensures few as real * gain <= many as real * gain
  {
    assert (many - few) as real * gain >= 0.0;
  }

  lemma BoundFromPace(limits: Limits, length: nat, decided: nat, promoted: nat, room: real)
    requires length <= decided + 1 && decided <= Patience(limits, promoted + 1) && 0.0 < limits.minImprovement
    requires Gain(limits, promoted) <= room
    ensures Gain(limits, length) <= (room + limits.minImprovement) * limits.patience as real + limits.minImprovement
  {
    ScalePace(decided, promoted, limits.patience, limits.minImprovement, room);
    ScaleDown(length - 1, decided, limits.minImprovement);
    assert Gain(limits, length) == (length - 1) as real * limits.minImprovement + limits.minImprovement;
  }

  /** Scores bounded by `top` and a positive minimum improvement bound the run without
      max_iterations. */
  lemma BoundedScoresBoundTheRun(limits: Limits, states: seq<StateSnapshot>, obs: seq<Observation>, top: real)
    requires IsPolicyRun(limits, states, obs) && 0.0 < limits.minImprovement
    requires forall s :: s in states && s.peakScore.Some? ==> s.peakScore.value <= top
    ensures states[0].peakScore.Some?
    ensures |obs| as real * limits.minImprovement <=
      (top - states[0].peakScore.value + limits.minImprovement) * limits.patience as real + limits.minImprovement
  {
    hide *;
    RunLengthBound(limits, states, obs);
    var decided, promoted := Decisions(limits, states, obs, |obs|), Promotions(limits, states, obs, |obs|);
    GainsAre(limits, promoted);
    GainsAre(limits, promoted + 1);
    GainsAre(limits, |obs|);
    assert states[|obs|] in states;
    BoundFromPace(limits, |obs|, decided, promoted, top - states[0].peakScore.value);
  }

  /** The Peak came from somewhere: the start, or a promoted candidate. */
  ghost predicate PeakHasSource(limits: Limits, states: seq<StateSnapshot>, obs: seq<Observation>, n: nat)
    requires MovesRun(limits, states, obs) && n <= |obs|
  {
    || (states[n].peak == states[0].peak && states[n].peakScore == states[0].peakScore)
    || exists i :: 0 <= i < n && PromotedAs(limits, states, obs, i, states[n])
  }

  ghost predicate PromotedAs(limits: Limits, states: seq<StateSnapshot>, obs: seq<Observation>, i: nat, s: StateSnapshot)
    requires MovesRun(limits, states, obs) && i < |obs|
  {
    && Disposed(limits, states, obs, i) == Promote
    && s.peak == Some(obs[i].checkpoint) && s.peakScore == Some(obs[i].score)
  }

  /** What one candidate leaves behind: it is the new Peak, or the Peak stands and it scored
      at most the minimum improvement above it. */
  lemma PeakAfter(limits: Limits, s: StateSnapshot, o: Observation, s': StateSnapshot)
    requires s.peakScore.Some? && s'.peakScore.Some? && Moves(limits, s, o, s')
    ensures var action := Disposition(limits, s, o);
      && s.peakScore.value <= s'.peakScore.value
      && (action != Abort ==> o.score <= s'.peakScore.value + limits.minImprovement)
      && (if action == Promote then s'.peak == Some(o.checkpoint) && s'.peakScore == Some(o.score)
          else s'.peak == s.peak && s'.peakScore == s.peakScore)
  {
  }

  lemma {:induction false} PeakSource(limits: Limits, states: seq<StateSnapshot>, obs: seq<Observation>, n: nat)
    requires MovesRun(limits, states, obs) && n <= |obs|
    ensures PeakHasSource(limits, states, obs, n)
  {
    if n > 0 {
      PeakSource(limits, states, obs, n - 1);
      PeakAfter(limits, states[n - 1], obs[n - 1], states[n]);
      hide Moves, Disposition;
      if Disposed(limits, states, obs, n - 1) == Promote {
        assert PromotedAs(limits, states, obs, n - 1, states[n]);
      } else if !(states[n].peak == states[0].peak && states[n].peakScore == states[0].peakScore) {
        var i :| 0 <= i < n - 1 && PromotedAs(limits, states, obs, i, states[n - 1]);
        assert PromotedAs(limits, states, obs, i, states[n]);
      }
    }
  }

  lemma {:induction false} PeakNeverFalls(limits: Limits, states: seq<StateSnapshot>, obs: seq<Observation>, i: nat, n: nat)
    requires MovesRun(limits, states, obs) && i <= n <= |obs|
    ensures states[i].peakScore.value <= states[n].peakScore.value
    decreases n
  {
    if i < n {
      PeakNeverFalls(limits, states, obs, i, n - 1);
      PeakAfter(limits, states[n - 1], obs[n - 1], states[n]);
    }
  }

  /** The Peak a run ends with is the initial one or a promoted candidate, no earlier Peak
      scored more, and every candidate that was not aborted scored at most Peak +
      min_improvement. */
  lemma PeakIsNearOptimal(limits: Limits, states: seq<StateSnapshot>, obs: seq<Observation>)
    requires IsPolicyRun(limits, states, obs)
    ensures MovesRun(limits, states, obs)
    ensures PeakHasSource(limits, states, obs, |obs|)
    ensures forall i :: 0 <= i < |states| ==> states[i].peakScore.value <= states[|obs|].peakScore.value
    ensures forall i :: 0 <= i < |obs| && Disposed(limits, states, obs, i) != Abort ==>
      obs[i].score <= states[|obs|].peakScore.value + limits.minImprovement
  {
    RunMoves(limits, states, obs);
    PeakSource(limits, states, obs, |obs|);
    hide IsPolicyRun;
    forall i | 0 <= i < |states| ensures states[i].peakScore.value <= states[|obs|].peakScore.value {
      PeakNeverFalls(limits, states, obs, i, |obs|);
    }
    forall i | 0 <= i < |obs| && Disposed(limits, states, obs, i) != Abort
      ensures obs[i].score <= states[|obs|].peakScore.value + limits.minImprovement
    {
      PeakAfter(limits, states[i], obs[i], states[i + 1]);
    }
  }
}
