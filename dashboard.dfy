// The dashboard's figures: four reads (interviews, recording durations, the past week's
// interviews, the latest feedback), each retried on a thrown error from one budget of three
// retries that the four reads share, then the interview count, practice hours and the
// average and best score.

module Dashboard {
  import opened JsCommon
  import opened Seqs
  import opened ScoreStats

  const MaxRetries: nat := 3
  const RetryDelay: nat := 1000

  /** What one call of a read does: resolve with a value, or throw an error with a message. */
  datatype Attempt<T> = Resolves(value: T) | Throws(message: string)

  /** What `fetchWithRetry` gives: the first resolved value, a thrown error, or `null` without any attempt. */
  datatype Fetched<T> = Got(value: T) | Thrown(message: string) | Skipped

  /** A call of `fetchWithRetry`: its result, the shared retry count after it, and the waits (ms) it made. */
  datatype RetryRun<T> = RetryRun(fetched: Fetched<T>, count: nat, waits: seq<nat>)

  /**
   * `fetchWithRetry` with the shared count at `count`, the read's `k`-th call being `attempt(k)`.
   * Each thrown error uses up one retry; the one that brings the count to three is rethrown
   * with the read's message in front; before any other retry it waits 1000 ms times the count.
   */
  function Retry<T>(count: nat, attempt: nat -> Attempt<T>, k: nat, message: string): (r: RetryRun<T>)
    ensures count >= MaxRetries ==> r == RetryRun(Skipped, count, [])
    ensures count < MaxRetries ==> !r.fetched.Skipped? && count <= r.count <= MaxRetries
    ensures r.fetched.Thrown? ==> r.count == MaxRetries && |r.waits| == MaxRetries - count - 1
    ensures r.fetched.Got? ==> r.count < MaxRetries && |r.waits| == r.count - count
    ensures forall i :: 0 <= i < |r.waits| ==> r.waits[i] == RetryDelay * (count + 1 + i)
    decreases MaxRetries - count
  {
    if count >= MaxRetries then RetryRun(Skipped, count, [])
    else
      match attempt(k)
      case Resolves(v) => RetryRun(Got(v), count, [])
      case Throws(e) =>
        if count + 1 == MaxRetries then RetryRun(Thrown(message + ": " + e), MaxRetries, [])
        else
          var rest := Retry(count + 1, attempt, k + 1, message);
          RetryRun(rest.fetched, rest.count, [RetryDelay * (count + 1)] + rest.waits)
  }

  /** The first value resolved within the budget is the result, and each failure before it used one retry. */
  lemma {:induction false} RetryGetsFirstValue<T>(count: nat, attempt: nat -> Attempt<T>, k: nat, message: string, j: nat)
    requires count + j < MaxRetries && attempt(k + j).Resolves?
    requires forall i :: k <= i < k + j ==> attempt(i).Throws?
    ensures Retry(count, attempt, k, message).fetched == Got(attempt(k + j).value)
    ensures Retry(count, attempt, k, message).count == count + j
    decreases j
  {
    if j > 0 {
      assert attempt(k).Throws?;
      RetryGetsFirstValue(count + 1, attempt, k + 1, message, j - 1);
    }
  }

  /** Failing every call the budget allows throws the last error, with the read's message in front. */
  lemma {:induction false} RetryThrowsLast<T>(count: nat, attempt: nat -> Attempt<T>, k: nat, message: string)
    requires count < MaxRetries
    requires forall i :: k <= i < k + MaxRetries - count ==> attempt(i).Throws?
    ensures var last := k + MaxRetries - count - 1;
            attempt(last).Throws? && Retry(count, attempt, k, message).fetched == Thrown(message + ": " + attempt(last).message)
    decreases MaxRetries - count
  {
    assert attempt(k).Throws?;
    if count + 1 < MaxRetries {
      RetryThrowsLast(count + 1, attempt, k + 1, message);
    }
  }

  /** Once three retries are used up a read makes no call and gives `null`. */
  lemma RetryExhausted<T>(attempt: nat -> Attempt<T>, k: nat, message: string)
    ensures Retry(MaxRetries, attempt, k, message) == RetryRun(Skipped, MaxRetries, [])
  {
  }

  // ------------------------------------------------------------ the reads

  /** An interview row; only its score is used. */
  datatype Interview = Interview(score: Option<real>)

  /** The interviews read's answer: its rows (`null` as `None`) and its error, if any. */
  datatype InterviewsReply = InterviewsReply(data: Option<seq<Interview>>, error: Option<string>)

  /** A row of the past week's interviews. */
  datatype WeekRow = WeekRow(createdAt: string, score: Option<real>)

  /** A point of the weekly chart: the day's short name and the score (0 when missing). */
  datatype Point = Point(date: string, score: real)

  /** A feedback row, kept as it is read. */
  datatype Feedback = Feedback(id: string, interviewId: string, text: string)

  datatype DashboardStats = DashboardStats(totalInterviews: nat, practiceHours: int, averageScore: int, bestScore: real)

  const InitialStats := DashboardStats(0, 0, 0, 0.0)

  const DefaultError := "Failed to load dashboard data. Please check your connection and try again."

  function ScoreOf(i: Interview): Option<real>
  {
    i.score
  }

  /** The figures for the interviews read (`interviews?.length || 0` and the truthy scores) and the practice time. */
  function StatsOf(interviews: Option<seq<Interview>>, seconds: real): (s: DashboardStats)
    ensures interviews.None? ==> s.totalInterviews == 0 && s.averageScore == 0 && s.bestScore == 0.0
    ensures interviews.Some? ==> s.totalInterviews == |interviews.value|
    ensures seconds - 1800.0 < s.practiceHours as real * 3600.0 <= seconds + 1800.0
  {
    var scores := if interviews.Some? then Present(Map(interviews.value, ScoreOf)) else [];
    DashboardStats(if interviews.Some? then |interviews.value| else 0, Round(seconds / 3600.0),
                   AverageScore(scores), BestScore(scores))
  }

  /** The summed durations of the recordings read, in seconds; missing durations count 0, a `null` answer too. */
  function PracticeSeconds(durations: Option<seq<Option<real>>>): (s: real)
    ensures durations.None? ==> s == 0.0
  {
    if durations.None? then 0.0 else Seconds(durations.value)
  }

  function Seconds(ds: seq<Option<real>>): real
  {
    if ds == [] then 0.0 else Seconds(ds[..|ds| - 1]) + (if ds[|ds| - 1].Some? then ds[|ds| - 1].value else 0.0)
  }

  /** The weekly chart: one point per row, in order, its day from `dayName` (the locale formatting). */
  function ProgressOf(rows: Option<seq<WeekRow>>, dayName: string -> string): (p: seq<Point>)
    ensures rows.None? ==> p == []
    ensures rows.Some? ==> |p| == |rows.value| &&
                           forall k :: 0 <= k < |p| ==>
                             p[k].date == dayName(rows.value[k].createdAt) &&
                             p[k].score == (if rows.value[k].score.Some? then rows.value[k].score.value else 0.0)
  {
    if rows.None? then []
    else Map(rows.value, (w: WeekRow) => Point(dayName(w.createdAt), if w.score.Some? then w.score.value else 0.0))
  }

  /** A value read, or `None` for `null` (an error answer counts as `null` for the last three reads). */
  function DataOf<T>(f: Fetched<Option<T>>): Option<T>
  {
    if f.Got? then f.value else None
  }

  /** What one run of the effect ends with: the new figures, or the error to show. */
  datatype Outcome = Loaded(stats: DashboardStats, progress: seq<Point>, feedback: seq<Feedback>) | Failed(message: string)

  /** A run's outcome and all the waits it made. */
  datatype Load = Load(outcome: Outcome, waits: seq<nat>)

  /** The reads' calls: the `k`-th call of each read is that read's entry at `k`. */
  datatype Reads = Reads(interviews: nat -> Attempt<InterviewsReply>, recordings: nat -> Attempt<Option<seq<Option<real>>>>,
                         weekly: nat -> Attempt<Option<seq<WeekRow>>>, feedback: nat -> Attempt<Option<seq<Feedback>>>)

  const InterviewsMessage := "Failed to fetch interviews"
  const RecordingsMessage := "Failed to fetch recordings"
  const WeeklyMessage := "Failed to fetch weekly progress"
  const FeedbackMessage := "Failed to fetch feedback"

  /** `err.message || DefaultError`. */
  function MessageOr(m: string): (r: string)
    ensures r != ""
  {
    if m != "" then m else DefaultError
  }

  /**
   * `fetchDashboardData`: the four reads in turn from one retry budget; a thrown error, or an
   * error answer to the interviews read, ends the run with that error's message.
   */
  function LoadOf(calls: Reads, dayName: string -> string): (r: Load)
    ensures |r.waits| <= MaxRetries - 1
    ensures forall i :: 0 <= i < |r.waits| ==> r.waits[i] == RetryDelay * (i + 1)
  {
    var a := Retry(0, calls.interviews, 0, InterviewsMessage);
    if a.fetched.Thrown? then Load(Failed(MessageOr(a.fetched.message)), a.waits)
    else if a.fetched.value.error.Some? then Load(Failed(MessageOr(a.fetched.value.error.value)), a.waits)
    else
      var b := Retry(a.count, calls.recordings, 0, RecordingsMessage);
      if b.fetched.Thrown? then Load(Failed(MessageOr(b.fetched.message)), a.waits + b.waits)
      else
        var c := Retry(b.count, calls.weekly, 0, WeeklyMessage);
        if c.fetched.Thrown? then Load(Failed(MessageOr(c.fetched.message)), a.waits + b.waits + c.waits)
        else
          var d := Retry(c.count, calls.feedback, 0, FeedbackMessage);
          if d.fetched.Thrown? then Load(Failed(MessageOr(d.fetched.message)), a.waits + b.waits + c.waits + d.waits)
          else
            var feedback := DataOf(d.fetched);
            Load(Loaded(StatsOf(a.fetched.value.data, PracticeSeconds(DataOf(b.fetched))), ProgressOf(DataOf(c.fetched), dayName),
                    if feedback.Some? then feedback.value else []),
             a.waits + b.waits + c.waits + d.waits)
  }

  /** When every read resolves at its first call and the interviews read has no error, the figures come straight from the answers, without a wait. */
  lemma FirstCallsResolve(calls: Reads, dayName: string -> string)
    requires calls.interviews(0).Resolves? && calls.interviews(0).value.error.None?
    requires calls.recordings(0).Resolves? && calls.weekly(0).Resolves? && calls.feedback(0).Resolves?
    ensures var days := calls.weekly(0).value; var feedback := calls.feedback(0).value;
            LoadOf(calls, dayName) ==
              Load(Loaded(StatsOf(calls.interviews(0).value.data, PracticeSeconds(calls.recordings(0).value)),
                      ProgressOf(days, dayName), if feedback.Some? then feedback.value else []), [])
  {
  }

  /**
   * The budget is shared: once the interviews read has used two retries, the recordings read
   * gets a single call, and its first thrown error ends the run.
   */
  lemma SharedBudget(calls: Reads, dayName: string -> string)
    requires calls.interviews(0).Throws? && calls.interviews(1).Throws? && calls.interviews(2).Resolves?
    requires calls.interviews(2).value.error.None? && calls.recordings(0).Throws?
    ensures LoadOf(calls, dayName) ==
            Load(Failed(RecordingsMessage + ": " + calls.recordings(0).message), [RetryDelay, 2 * RetryDelay])
  {
    RetryGetsFirstValue(0, calls.interviews, 0, InterviewsMessage, 2);
    assert Retry(0, calls.interviews, 0, InterviewsMessage).waits == [RetryDelay, 2 * RetryDelay];
  }

  /** Three thrown errors of the interviews read end the run with its message. */
  lemma InterviewsGiveUp(calls: Reads, dayName: string -> string)
    requires calls.interviews(0).Throws? && calls.interviews(1).Throws? && calls.interviews(2).Throws?
    ensures LoadOf(calls, dayName).outcome == Failed(InterviewsMessage + ": " + calls.interviews(2).message)
  {
    RetryThrowsLast(0, calls.interviews, 0, InterviewsMessage);
  }

  /** An error answer to the interviews read ends the run with its message, without a retry. */
  lemma InterviewsErrorAnswer(calls: Reads, dayName: string -> string)
    requires calls.interviews(0).Resolves? && calls.interviews(0).value.error.Some?
    ensures LoadOf(calls, dayName) == Load(Failed(MessageOr(calls.interviews(0).value.error.value)), [])
  {
  }

  // ------------------------------------------------------------ the hook

  /** The retry count one run of the effect shares between its reads. */
  class RetryBudget {
    var retryCount: nat

    constructor ()
      ensures retryCount == 0
    {
      retryCount := 0;
    }

    /** `fetchWithRetry`: the read's calls, one per round of the loop, until one resolves or the budget is used up. */
    method FetchWithRetry<T>(attempt: nat -> Attempt<T>, message: string) returns (fetched: Fetched<T>, waits: seq<nat>)
      modifies this
      ensures RetryRun(fetched, retryCount, waits) == Retry(old(retryCount), attempt, 0, message)
    {
      waits := [];
      var k := 0;
      while retryCount < MaxRetries
        invariant Retry(old(retryCount), attempt, 0, message) == After(waits, Retry(retryCount, attempt, k, message))
        decreases MaxRetries - retryCount
      {
        match attempt(k)
        case Resolves(v) =>
          return Got(v), waits;
        case Throws(e) =>
          RetryStep(retryCount, attempt, k, message, waits);
          retryCount := retryCount + 1;
          if retryCount == MaxRetries {
            return Thrown(message + ": " + e), waits;
          }
          waits := waits + [RetryDelay * retryCount];
          k := k + 1;
      }
      fetched := Skipped;
    }
  }

  /** A thrown error below the last retry: wait, then the rest of the calls. */
  lemma RetryStep<T>(count: nat, attempt: nat -> Attempt<T>, k: nat, message: string, waits: seq<nat>)
    requires count < MaxRetries && attempt(k).Throws?
    ensures count + 1 < MaxRetries ==>
              After(waits, Retry(count, attempt, k, message)) ==
              After(waits + [RetryDelay * (count + 1)], Retry(count + 1, attempt, k + 1, message))
    ensures count + 1 == MaxRetries ==>
              Retry(count, attempt, k, message) == RetryRun(Thrown(message + ": " + attempt(k).message), MaxRetries, [])
  {
    if count + 1 < MaxRetries {
      var rest := Retry(count + 1, attempt, k + 1, message);
      assert waits + ([RetryDelay * (count + 1)] + rest.waits) == waits + [RetryDelay * (count + 1)] + rest.waits;
    }
  }

  /** A call's run after the waits of the calls before it. */
  function After<T>(waits: seq<nat>, run: RetryRun<T>): RetryRun<T>
  {
    RetryRun(run.fetched, run.count, waits + run.waits)
  }

  class DashboardData {
    var stats: DashboardStats
    var weeklyProgress: seq<Point>
    var latestFeedback: seq<Feedback>
    var loading: bool
    var error: Option<string>

    constructor ()
      ensures stats == InitialStats && weeklyProgress == [] && latestFeedback == [] && loading && error.None?
    {
      stats := InitialStats;
      weeklyProgress := [];
      latestFeedback := [];
      loading := true;
      error := None;
    }

    /**
     * One run of the effect: without a user nothing happens. Otherwise loading starts, the
     * reads run from a fresh budget, and, if the component is still mounted at the end, the
     * figures or the error are set and loading ends. The waits made are returned.
     */
    method FetchDashboardData(signedIn: bool, calls: Reads, dayName: string -> string, stillMounted: bool)
      returns (outcome: Option<Outcome>, waits: seq<nat>)
      modifies this
      ensures !signedIn ==> outcome.None? && waits == [] && stats == old(stats) && weeklyProgress == old(weeklyProgress) &&
                            latestFeedback == old(latestFeedback) && loading == old(loading) && error == old(error)
      ensures signedIn ==> outcome.Some? && Load(outcome.value, waits) == LoadOf(calls, dayName)
      ensures signedIn && !stillMounted ==>
                loading && error.None? && stats == old(stats) && weeklyProgress == old(weeklyProgress) &&
                latestFeedback == old(latestFeedback)
      ensures signedIn && stillMounted ==> !loading
      ensures signedIn && stillMounted && outcome.value.Loaded? ==>
                stats == outcome.value.stats && weeklyProgress == outcome.value.progress &&
                latestFeedback == outcome.value.feedback && error.None?
      ensures signedIn && stillMounted && outcome.value.Failed? ==>
                error == Some(outcome.value.message) && stats == old(stats) &&
                weeklyProgress == old(weeklyProgress) && latestFeedback == old(latestFeedback)
    {
      if !signedIn {
        return None, [];
      }
      loading := true;
      error := None;
      var o;
      o, waits := Reading(calls, dayName);
      outcome := Some(o);
      if stillMounted {
        match o {
          case Loaded(s, p, f) =>
            stats := s;
            weeklyProgress := p;
            latestFeedback := f;
          case Failed(m) =>
            error := Some(m);
        }
        loading := false;
      }
    }
  }

  /** The reads of one run, from a fresh budget, up to the first error. */
  method Reading(calls: Reads, dayName: string -> string) returns (outcome: Outcome, waits: seq<nat>)
    ensures Load(outcome, waits) == LoadOf(calls, dayName)
  {
    var budget := new RetryBudget();
    var a, wa := budget.FetchWithRetry(calls.interviews, InterviewsMessage);
    waits := wa;
    if a.Thrown? {
      return Failed(MessageOr(a.message)), waits;
    }
    if a.value.error.Some? {
      return Failed(MessageOr(a.value.error.value)), waits;
    }
    var b, wb := budget.FetchWithRetry(calls.recordings, RecordingsMessage);
    waits := waits + wb;
    if b.Thrown? {
      return Failed(MessageOr(b.message)), waits;
    }
    var c, wc := budget.FetchWithRetry(calls.weekly, WeeklyMessage);
    waits := waits + wc;
    if c.Thrown? {
      return Failed(MessageOr(c.message)), waits;
    }
    var d, wd := budget.FetchWithRetry(calls.feedback, FeedbackMessage);
    waits := waits + wd;
    if d.Thrown? {
      return Failed(MessageOr(d.message)), waits;
    }
    var feedback := DataOf(d);
    outcome := Loaded(StatsOf(a.value.data, PracticeSeconds(DataOf(b))), ProgressOf(DataOf(c), dayName),
                      if feedback.Some? then feedback.value else []);
  }
}
