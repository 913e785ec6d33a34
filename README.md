# Adaptive arithmetic quiz core, in Dafny

A model of the decision logic of an adaptive arithmetic quiz: the puzzle
generator, which turns a difficulty tier and two random draws into a
question text and its integer answer; the performance tracker, which logs
each attempt with its elapsed time and summarises the session; and the
adaptive engine, which picks the next tier from the current one and the last
attempt.

- `wrappers.dfy` (`Wrappers`): `Option`, `Result` and `Outcome`, used for the
  error paths of the original (a raised exception becomes a `Failure`/`Fail`).
- `levels.dfy` (`Levels`): the tiers `Easy | Medium | Hard`, the ordered list of
  labels `DifficultyLevels`, and `IndexOf`, the list lookup the engine uses to
  turn a label into a position.
- `adaptive_engine.dfy` (`AdaptiveEngine`): `FastThreshold = 5.0`, the
  three-way rule `NextIndex` on positions and `GetNextDifficulty` on labels,
  with lemmas for each branch, the clamping, the one-step bound, the strict
  threshold and the self-test scenario table.
- `tracker.dfy` (`Tracker`): the `Attempt` record, the
  `Summary` datatype (`NoAttempts | Stats(total, correct, accuracy, avgTime)`)
  in place of the formatted report, the specification functions `CountCorrect`,
  `TotalTime` and `Summarize`, and the class `PerformanceTracker` with a `seq`
  log, an optional start marker and the methods `StartPuzzle`, `LogAttempt` and
  `GetSummary` (a loop proved against `Summarize`).
- `decimal.dfy` (`Decimal`): the decimal text of a natural number, as the
  question's f-string renders it, and its inverse.
- `puzzle_generator.dfy` (`PuzzleGenerator`): `Generate` per tier, the
  label-level entry `GeneratePuzzle`, and `ParseQuestion`, the inverse of the
  question text, used to prove that the answer is what the question asks.

The clock (`time.time()`) is a `now: real` parameter of `StartPuzzle` and
`LogAttempt`; the draws of `random.randint` are parameters `draw1`, `draw2`,
required to lie in the ranges the generator draws from. Times are exact reals.

Where the two disagree, the model follows the code: the Hard tier draws its
first operand from 11 to 20 and its second from 2 to 20, whatever the
"2 to 12" comment beside it says, so its answers lie in 22..400. The tracker
keeps the start marker after logging (the code never clears it), and a tier
label is never validated by the tracker.

## Model

| member | source | states |
|---|---|---|
| Levels.Index | src/adaptive_engine.py:2 | every tier has a position in the list of levels |
| Levels.FromIndex | src/adaptive_engine.py:2 | every position of the list denotes the tier at that position |
| Levels.IndexOf | src/adaptive_engine.py:20 | the list lookup: absent exactly when the label is not in the list; otherwise the first position holding it |
| Levels.ParseTier | src/adaptive_engine.py:19-20 | a label reads as a tier exactly when it is in the list of levels, and then as the tier with that label |
| Levels.ParseLabel | src/adaptive_engine.py:2 | reading a tier's label gives back that tier |
| AdaptiveEngine.NextIndex | src/adaptive_engine.py:22-42 | the next position is a position of the list and differs from the current one by at most one |
| AdaptiveEngine.GetNextDifficulty | src/adaptive_engine.py:8-45 | an unknown current label is an InvalidTier error (the lookup raises); otherwise the result is one of the levels |
| AdaptiveEngine.CorrectAndFastMovesUp | src/adaptive_engine.py:23-29 | correct and under 5 seconds: the tier at position min(current + 1, 2) |
| AdaptiveEngine.IncorrectMovesDown | src/adaptive_engine.py:31-37 | incorrect, whatever the time: the tier at position max(current - 1, 0) |
| AdaptiveEngine.CorrectAndSlowStays | src/adaptive_engine.py:39-42 | correct in 5 seconds or more: the current tier |
| AdaptiveEngine.ThresholdIsStrict | src/adaptive_engine.py:23 | correct in exactly 5.0 seconds counts as slow: the tier stays |
| AdaptiveEngine.AtMostOneStep | src/adaptive_engine.py:26-45 | for every tier and attempt the result is a valid tier whose index is within one of the current index |
| AdaptiveEngine.ClampedAtBothEnds | src/adaptive_engine.py:26-37 | Hard is fixed under correct and fast answers, Easy under incorrect ones |
| AdaptiveEngine.IgnoresAttemptDifficulty | src/adaptive_engine.py:15-20 | the decision reads only the correctness and the time of the attempt, not its difficulty field |
| AdaptiveEngine.ScenarioTable | src/adaptive_engine.py:52-90 | the five self-test scenarios give Medium, Easy, Medium, Easy and Hard |
| Tracker.CountCorrect | src/tracker.py:50-56 | the correct count never exceeds the number of attempts |
| Tracker.Summarize | src/tracker.py:42-61 | empty log gives the distinct no-attempts result and no division; otherwise total is the log length, correct is at most total, accuracy lies in [0, 100] |
| Tracker.CountCorrectAll | src/tracker.py:54-56 | the correct count equals the log length exactly when every attempt was correct |
| Tracker.CountCorrectNone | src/tracker.py:54-56 | the correct count is zero exactly when no attempt was correct |
| Tracker.FullAccuracy | src/tracker.py:60 | accuracy is 100 exactly when every attempt was correct |
| Tracker.ZeroAccuracy | src/tracker.py:60 | accuracy is 0 exactly when no attempt was correct |
| Tracker.TotalTimeNonNegative | src/tracker.py:57 | with no negative elapsed time the total time is not negative |
| Tracker.AverageTimeNonNegative | src/tracker.py:57-61 | with no negative elapsed time, the average over all attempts, correct and incorrect, is not negative |
| Tracker.SummarizeAppend | src/tracker.py:39 | one more attempt adds one puzzle, one correct answer when it was right, and its time to the totals |
| Tracker.PerformanceTracker.constructor | src/tracker.py:10-15 | a fresh tracker has an empty log and no start marker |
| Tracker.PerformanceTracker.StartPuzzle | src/tracker.py:17-20 | the marker becomes the current clock and the log is unchanged; the last call wins |
| Tracker.PerformanceTracker.LogAttempt | src/tracker.py:22-39 | with a marker, exactly one record (difficulty, correctness, now - marker) is appended after the unchanged earlier entries; without one, a StateError and nothing logged; the marker is kept |
| Tracker.PerformanceTracker.GetSummary | src/tracker.py:42-61 | the one-pass loop computes Summarize of the log; it has no modifies clause, so log and marker are unchanged |
| Tracker.ThreeRoundSession | src/tracker.py:76-99 | three rounds of 1, 2 and 3 seconds, right, wrong, right, with one puzzle started twice, summarise to 3 puzzles, 2 correct, accuracy 200/3, average 2.0 |
| Decimal.NatToString | src/puzzle_generator.py:15 | the decimal text of a number is a non-empty string of digits without a leading zero |
| Decimal.ParseNat | src/puzzle_generator.py:15 | a string reads as a number exactly when it is a non-empty string of digits |
| Decimal.ParseNatToString | src/puzzle_generator.py:15 | reading back a number's decimal text gives the number |
| PuzzleGenerator.SplitAtSpace | src/puzzle_generator.py:15 | a split at the first space rebuilds the text and leaves no space on its left |
| PuzzleGenerator.ParseFormatQuestion | src/puzzle_generator.py:15-35 | the question text "What is {num1} {op} {num2}?" reads back as exactly its operands and operator |
| PuzzleGenerator.MediumOperands | src/puzzle_generator.py:25-26 | after the swap the first operand is at least the second, and the pair is the drawn pair as a multiset |
| PuzzleGenerator.Generate | src/puzzle_generator.py:11-36 | within the draw ranges the answer lies in [2, 18] for Easy, [0, 40] for Medium and [22, 400] for Hard |
| PuzzleGenerator.GeneratedQuestionMatchesAnswer | src/puzzle_generator.py:11-36 | the question reads back as the tier's operator on exactly the two drawn operands (larger first for Medium) and evaluates to the answer |
| PuzzleGenerator.GeneratePuzzle | src/puzzle_generator.py:4-38 | a label outside the three levels is an InvalidTier error, never a default puzzle; a level label gives the puzzle of its tier |

## Left out

- The printed diagnostics of the engine and the tracker, and the formatted
  report text of the summary with its two-decimal rounding: output only.
- The self-test blocks of the tracker and the generator, which sleep and
  print; the tracker's is replaced by `ThreeRoundSession`.
- `time.time()` and `random.randint`: the clock and the draws are parameters;
  uniformity of the draws is not modelled, only their ranges.
- Floating point: times, accuracy and average are exact reals, so the
  model has no rounding in the divisions.
- The exception types: the failed list lookup (ValueError), the unbound
  variable at the generator's return, and the subtraction from a missing
  marker (TypeError) are all error results of the model.
- The command-line driver and the web front end (prompts, input re-prompting,
  round loop, session state): they only call into this core and are not part
  of this model.
