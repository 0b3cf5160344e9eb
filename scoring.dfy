/** The scoring of backend/scoring.py: base 100, a speed bonus of 10 under
    five minutes, and 2 points off for every commit beyond 20, never below 0. */
module Scoring {
  import opened State

  const BASE_SCORE: int := 100
  const SPEED_BONUS: int := 10
  /** Five minutes, in seconds. */
  const SPEED_LIMIT: real := 300.0
  const FREE_COMMITS: nat := 20
  const COMMIT_PENALTY: nat := 2

  /** The run's duration: the time since `start_time` when that is set (not 0),
      else the stored `total_time`. `now` is `datetime.now().timestamp()`. */
  function Duration(startTime: real, now: real, totalTime: real): (d: real)
    ensures startTime != 0.0 ==> d == now - startTime
    ensures startTime == 0.0 ==> d == totalTime
  {
    if startTime != 0.0 then now - startTime else totalTime
  }

  /** The score for a duration and a commit count. */
  function ScoreOf(duration: real, commits: nat): (s: int)
    ensures 0 <= s <= BASE_SCORE + SPEED_BONUS
    ensures commits <= FREE_COMMITS ==>
      s == (if duration < SPEED_LIMIT then BASE_SCORE + SPEED_BONUS else BASE_SCORE)
    ensures commits > FREE_COMMITS ==>
      var raw := (if duration < SPEED_LIMIT then BASE_SCORE + SPEED_BONUS else BASE_SCORE)
                 - COMMIT_PENALTY * (commits - FREE_COMMITS);
      s == (if raw < 0 then 0 else raw)
  {
    var base := BASE_SCORE + (if duration < SPEED_LIMIT then SPEED_BONUS else 0);
    var score := if commits > FREE_COMMITS then base - COMMIT_PENALTY * (commits - FREE_COMMITS) else base;
    if score < 0 then 0 else score
  }

  /** `calculate_score`: the score and the duration it was computed from; one
      fix counts as one commit. */
  function CalculateScore(v: StateView, now: real): (r: (int, real))
    ensures r.1 == Duration(v.startTime, now, v.totalTime)
    ensures r.0 == ScoreOf(r.1, |v.fixesApplied|)
  {
    var duration := Duration(v.startTime, now, v.totalTime);
    (ScoreOf(duration, |v.fixesApplied|), duration)
  }

  /** More commits never raise the score. */
  lemma ScoreMonotoneInCommits(duration: real, c1: nat, c2: nat)
    requires c1 <= c2
    ensures ScoreOf(duration, c2) <= ScoreOf(duration, c1)
  {
  }

  /** Five fixes beyond the free twenty cost exactly ten points. */
  lemma TwentyFiveFixesCostTen(duration: real)
    ensures ScoreOf(duration, 25) == ScoreOf(duration, 20) - 10
  {
  }

  /** A faster run never scores lower. */
  lemma ScoreMonotoneInDuration(d1: real, d2: real, commits: nat)
    requires d1 <= d2
    ensures ScoreOf(d2, commits) <= ScoreOf(d1, commits)
  {
  }

  /** The bonus is earned exactly below five minutes. */
  lemma SpeedBonusIff(duration: real, commits: nat)
    requires commits <= FREE_COMMITS
    ensures ScoreOf(duration, commits) == 110 <==> duration < SPEED_LIMIT
    ensures ScoreOf(duration, commits) == 100 <==> duration >= SPEED_LIMIT
  {
  }

  /** The score reads nothing of the state but the duration inputs and the
      number of fixes. */
  lemma ScoreDependsOnlyOnTimeAndFixes(v: StateView, w: StateView, now: real)
    requires v.startTime == w.startTime && v.totalTime == w.totalTime
    requires |v.fixesApplied| == |w.fixesApplied|
    ensures CalculateScore(v, now) == CalculateScore(w, now)
  {
  }

  /** The state `scoring_node` leaves: the score and the duration recorded,
      nothing else changed. */
  function ScoringEffect(v: StateView, now: real): (w: StateView)
    ensures w.finalScore == CalculateScore(v, now).0 && w.totalTime == CalculateScore(v, now).1
    ensures w.(finalScore := v.finalScore, totalTime := v.totalTime) == v
  {
    var (score, duration) := CalculateScore(v, now);
    v.(finalScore := score, totalTime := duration)
  }

  /** `scoring_node`. */
  method ScoringNode(st: AgentState, now: real)
    modifies st
    ensures st.View() == ScoringEffect(old(st.View()), now)
  {
    var (score, duration) := CalculateScore(st.View(), now);
    st.finalScore := score;
    st.totalTime := duration;
  }
}
