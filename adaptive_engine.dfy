/**
 * The adaptive difficulty rule: from the current level and the last
 * attempt, the level of the next puzzle.
 */
module AdaptiveEngine {
  import opened Wrappers
  import opened Levels
  import opened Tracker

  /** An answer is fast when it takes strictly less than this many seconds. */
  const FastThreshold: real := 5.0

  datatype EngineError = InvalidTier(level: string)

  function Min(a: int, b: int): int { if a <= b then a else b }
  function Max(a: int, b: int): int { if a >= b then a else b }

  /**
   * The three-way decision on positions in the list of levels: up one when
   * correct and fast, down one when incorrect, otherwise stay; clamped at
   * both ends.
   */
  function NextIndex(currentIndex: nat, wasCorrect: bool, timeTaken: real): (next: nat)
    requires currentIndex < |DifficultyLevels|
    ensures next < |DifficultyLevels|
    ensures currentIndex - 1 <= next <= currentIndex + 1
  {
    if wasCorrect && timeTaken < FastThreshold then
      if currentIndex < 2 then currentIndex + 1 else currentIndex
    else if !wasCorrect then
      if currentIndex > 0 then currentIndex - 1 else currentIndex
    else
      currentIndex
  }

  /**
   * The label of the next level. A current label outside the list of
   * levels is an error, not a default. Only the correctness and the time of
   * the attempt are read.
   */
  function GetNextDifficulty(currentDifficulty: string, lastAttempt: Attempt): (r: Result<string, EngineError>)
    ensures r.Failure? <==> currentDifficulty !in DifficultyLevels
    ensures r.Failure? ==> r.error == InvalidTier(currentDifficulty)
    ensures r.Success? ==> r.value in DifficultyLevels
  {
    match IndexOf(DifficultyLevels, currentDifficulty)
    case None => Failure(InvalidTier(currentDifficulty))
    case Some(currentIndex) =>
      Success(DifficultyLevels[NextIndex(currentIndex, lastAttempt.wasCorrect, lastAttempt.timeTaken)])
  }

  /** Correct and fast: one tier up, clamped at Hard. */
  lemma CorrectAndFastMovesUp(t: Tier, a: Attempt)
    requires a.wasCorrect && a.timeTaken < FastThreshold
    ensures GetNextDifficulty(Label(t), a) == Success(Label(FromIndex(Min(Index(t) + 1, 2))))
  {
  }

  /** Incorrect, whatever the time: one tier down, clamped at Easy. */
  lemma IncorrectMovesDown(t: Tier, a: Attempt)
    requires !a.wasCorrect
    ensures GetNextDifficulty(Label(t), a) == Success(Label(FromIndex(Max(Index(t) - 1, 0))))
  {
  }

  /** Correct but not fast (5 seconds or more, 5.0 included): the same tier. */
  lemma CorrectAndSlowStays(t: Tier, a: Attempt)
    requires a.wasCorrect && a.timeTaken >= FastThreshold
    ensures GetNextDifficulty(Label(t), a) == Success(Label(t))
  {
  }

  /** The next tier is a tier, at most one step from the current one. */
  lemma AtMostOneStep(t: Tier, a: Attempt)
    ensures GetNextDifficulty(Label(t), a).Success?
    ensures var next := ParseTier(GetNextDifficulty(Label(t), a).value);
      next.Some? && -1 <= Index(next.value) - Index(t) <= 1
  {
  }

  /** Hard stays Hard on a correct and fast answer; Easy stays Easy on a wrong one. */
  lemma ClampedAtBothEnds(a: Attempt)
    ensures a.wasCorrect && a.timeTaken < FastThreshold ==> GetNextDifficulty("Hard", a) == Success("Hard")
    ensures !a.wasCorrect ==> GetNextDifficulty("Easy", a) == Success("Easy")
  {
  }

  /** The difficulty the attempt was logged under plays no part in the decision. */
  lemma IgnoresAttemptDifficulty(current: string, a: Attempt, d: string)
    ensures GetNextDifficulty(current, a) == GetNextDifficulty(current, a.(difficulty := d))
  {
  }

  /** The scenario table of the engine's self-test, for any logged difficulty `d`. */
  lemma ScenarioTable(d: string)
    ensures GetNextDifficulty("Easy", Attempt(d, true, 3.1)) == Success("Medium")
    ensures GetNextDifficulty("Medium", Attempt(d, false, 8.5)) == Success("Easy")
    ensures GetNextDifficulty("Medium", Attempt(d, true, 9.2)) == Success("Medium")
    ensures GetNextDifficulty("Easy", Attempt(d, false, 4.0)) == Success("Easy")
    ensures GetNextDifficulty("Hard", Attempt(d, true, 3.0)) == Success("Hard")
  {
  }

  /** Exactly 5 seconds counts as slow. */
  lemma ThresholdIsStrict(t: Tier, d: string)
    ensures GetNextDifficulty(Label(t), Attempt(d, true, 5.0)) == Success(Label(t))
  {
    CorrectAndSlowStays(t, Attempt(d, true, 5.0));
  }
}
