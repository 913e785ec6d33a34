/**
 * The per-session performance tracker: a log of attempts that only grows,
 * a start-time marker, and the summary statistics over the log.
 * The clock is passed in as `now`; times are exact reals.
 */
module Tracker {
  import opened Wrappers

  /** One logged puzzle round. */
  datatype Attempt = Attempt(difficulty: string, wasCorrect: bool, timeTaken: real)

  /** The session summary: either no attempts, or the four derived numbers. */
  datatype Summary =
    | NoAttempts
    | Stats(totalPuzzles: nat, totalCorrect: nat, accuracy: real, avgTime: real)

  datatype TrackerError = NoPuzzleStarted

  /** Number of attempts in `log` that were answered correctly. */
  function CountCorrect(log: seq<Attempt>): (n: nat)
    ensures n <= |log|
  {
    if log == [] then 0
    else CountCorrect(log[..|log| - 1]) + (if log[|log| - 1].wasCorrect then 1 else 0)
  }

  /** Sum of the time taken over every attempt in `log`, correct or not. */
  function TotalTime(log: seq<Attempt>): real
  {
    if log == [] then 0.0 else TotalTime(log[..|log| - 1]) + log[|log| - 1].timeTaken
  }

  ghost predicate AllCorrect(log: seq<Attempt>)
  {
    forall i :: 0 <= i < |log| ==> log[i].wasCorrect
  }

  ghost predicate NoneCorrect(log: seq<Attempt>)
  {
    forall i :: 0 <= i < |log| ==> !log[i].wasCorrect
  }

  ghost predicate TimesNonNegative(log: seq<Attempt>)
  {
    forall i :: 0 <= i < |log| ==> log[i].timeTaken >= 0.0
  }

  /** The summary of a log: empty is a result of its own, never a division. */
  function Summarize(log: seq<Attempt>): (s: Summary)
    ensures s.NoAttempts? <==> log == []
    ensures s.Stats? ==> s.totalPuzzles == |log| && s.totalCorrect <= s.totalPuzzles
    ensures s.Stats? ==> 0.0 <= s.accuracy <= 100.0
  {
    if log == [] then NoAttempts
    else
      var total := |log|;
      var correct := CountCorrect(log);
      assert correct as real / total as real <= 1.0;
      Stats(total, correct, (correct as real / total as real) * 100.0, TotalTime(log) / total as real)
  }

  /** Every attempt was correct exactly when the correct count is the whole log. */
  lemma {:induction false} CountCorrectAll(log: seq<Attempt>)
    ensures CountCorrect(log) == |log| <==> AllCorrect(log)
  {
    if log != [] {
      var init := log[..|log| - 1];
      CountCorrectAll(init);
      assert forall i :: 0 <= i < |init| ==> init[i] == log[i];
    }
  }

  /** No attempt was correct exactly when the correct count is zero. */
  lemma {:induction false} CountCorrectNone(log: seq<Attempt>)
    ensures CountCorrect(log) == 0 <==> NoneCorrect(log)
  {
    if log != [] {
      var init := log[..|log| - 1];
      CountCorrectNone(init);
      assert forall i :: 0 <= i < |init| ==> init[i] == log[i];
    }
  }

  lemma {:induction false} TotalTimeNonNegative(log: seq<Attempt>)
    requires TimesNonNegative(log)
    ensures TotalTime(log) >= 0.0
  {
    if log != [] {
      var init := log[..|log| - 1];
      assert forall i :: 0 <= i < |init| ==> init[i] == log[i];
      TotalTimeNonNegative(init);
    }
  }

  /** Accuracy is 100 exactly when every logged attempt was correct. */
  lemma FullAccuracy(log: seq<Attempt>)
    requires log != []
    ensures Summarize(log).accuracy == 100.0 <==> AllCorrect(log)
  {
    CountCorrectAll(log);
    var c, n := CountCorrect(log) as real, |log| as real;
    if c / n * 100.0 == 100.0 {
      assert c == n;
    }
  }

  /** Accuracy is 0 exactly when no logged attempt was correct. */
  lemma ZeroAccuracy(log: seq<Attempt>)
    requires log != []
    ensures Summarize(log).accuracy == 0.0 <==> NoneCorrect(log)
  {
    CountCorrectNone(log);
  }

  /** With no negative elapsed time in the log, the average time is not negative. */
  lemma AverageTimeNonNegative(log: seq<Attempt>)
    requires log != [] && TimesNonNegative(log)
    ensures Summarize(log).avgTime >= 0.0
  {
    TotalTimeNonNegative(log);
  }

  /** Appending one attempt adds one puzzle, one correct answer when it was right, and its time. */
  lemma SummarizeAppend(log: seq<Attempt>, a: Attempt)
    ensures Summarize(log + [a]).totalPuzzles == |log| + 1
    ensures CountCorrect(log + [a]) == CountCorrect(log) + (if a.wasCorrect then 1 else 0)
    ensures TotalTime(log + [a]) == TotalTime(log) + a.timeTaken
  {
    assert (log + [a])[..|log|] == log;
  }

  class PerformanceTracker {
    var performanceLog: seq<Attempt>
    /** The time the current puzzle was shown, or None before the first one. */
    var puzzleStartTime: Option<real>

    constructor ()
      ensures performanceLog == [] && puzzleStartTime == None
    {
      performanceLog := [];
      puzzleStartTime := None;
    }

    /** Records the time a puzzle is shown; a later call replaces an earlier one. */
    method StartPuzzle(now: real)
      modifies this`puzzleStartTime
      ensures puzzleStartTime == Some(now)
      ensures performanceLog == old(performanceLog)
    {
      puzzleStartTime := Some(now);
    }

    /**
     * Appends the attempt, with its time taken since the marker. Without a
     * marker the subtraction of the original fails and nothing is logged.
     * The marker is left in place.
     */
    method LogAttempt(difficulty: string, wasCorrect: bool, now: real) returns (outcome: Outcome<TrackerError>)
      modifies this`performanceLog
      ensures puzzleStartTime == old(puzzleStartTime)
      ensures old(puzzleStartTime).None? ==>
        outcome == Fail(NoPuzzleStarted) && performanceLog == old(performanceLog)
      ensures old(puzzleStartTime).Some? ==>
        outcome == Pass &&
        performanceLog == old(performanceLog) + [Attempt(difficulty, wasCorrect, now - old(puzzleStartTime).value)]
    {
      match puzzleStartTime
      case None =>
        outcome := Fail(NoPuzzleStarted);
      case Some(start) =>
        var timeTaken := now - start;
        performanceLog := performanceLog + [Attempt(difficulty, wasCorrect, timeTaken)];
        outcome := Pass;
    }

    /** The summary of the log, by one pass that counts correct answers and adds up the times. */
    method GetSummary() returns (summary: Summary)
      ensures summary == Summarize(performanceLog)
    {
      if performanceLog == [] {
        return NoAttempts;
      }
      var totalPuzzles := |performanceLog|;
      var totalCorrect := 0;
      var totalTime := 0.0;
      for i := 0 to |performanceLog|
        invariant totalCorrect == CountCorrect(performanceLog[..i])
        invariant totalTime == TotalTime(performanceLog[..i])
      {
        assert performanceLog[..i + 1][..i] == performanceLog[..i];
        var attempt := performanceLog[i];
        if attempt.wasCorrect {
          totalCorrect := totalCorrect + 1;
        }
        totalTime := totalTime + attempt.timeTaken;
      }
      assert performanceLog[..totalPuzzles] == performanceLog;
      var accuracy := (totalCorrect as real / totalPuzzles as real) * 100.0;
      var avgTime := totalTime / totalPuzzles as real;
      summary := Stats(totalPuzzles, totalCorrect, accuracy, avgTime);
    }
  }

  /**
   * A session of three rounds taking 1, 2 and 3 seconds, answered right,
   * wrong, right; the second round's puzzle is started twice and the later
   * marker is the one measured from.
   */
  method ThreeRoundSession() returns (summary: Summary)
    ensures summary == Stats(3, 2, 200.0 / 3.0, 2.0)
  {
    var tracker := new PerformanceTracker();
    tracker.StartPuzzle(0.0);
    var o1 := tracker.LogAttempt("Easy", true, 1.0);
    tracker.StartPuzzle(5.0);
    tracker.StartPuzzle(10.0);
    var o2 := tracker.LogAttempt("Medium", false, 12.0);
    tracker.StartPuzzle(20.0);
    var o3 := tracker.LogAttempt("Hard", true, 23.0);
    var log := tracker.performanceLog;
    assert log == [Attempt("Easy", true, 1.0), Attempt("Medium", false, 2.0), Attempt("Hard", true, 3.0)];
    assert log[..2][..1] == log[..1] && log[..1][..0] == [];
    assert CountCorrect(log[..1]) == 1 && TotalTime(log[..1]) == 1.0;
    assert CountCorrect(log[..2]) == 1 && TotalTime(log[..2]) == 3.0;
    assert CountCorrect(log) == 2 && TotalTime(log) == 6.0;
    summary := tracker.GetSummary();
  }
}
