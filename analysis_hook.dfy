// The analysis page's data: the sample figures it starts from, and what replaces them once a
// signed-in user's interviews of the last thirty days and their feedback have been read:
// the performance chart, the four skill averages, the four communication averages, the
// recommendations of the latest feedback, and the latest interview.

module AnalysisHook {
  import opened JsCommon
  import opened JsText
  import opened Seqs
  import opened ScoreStats

  /** An interview row: its id, creation time, and score and duration, each possibly missing. */
  datatype Interview = Interview(id: string, createdAt: string, score: Option<real>, duration: Option<real>)

  /** A feedback row: its five scores, each possibly missing, and its list of advice texts, possibly missing. */
  datatype Feedback = Feedback(responseQuality: Option<real>, clarityScore: Option<real>, answerStructure: Option<real>,
                               engagementScore: Option<real>, eyeContactScore: Option<real>,
                               feedbackText: Option<seq<string>>)

  datatype Point = Point(date: string, score: real, duration: real)
  datatype Skill = Skill(name: string, value: int)
  datatype Communication = Communication(clarity: int, structure: int, examples: int, bodyLanguage: int)
  datatype Recommendation = Recommendation(title: string, description: string)

  /** `x || 0` for a number that may be missing. */
  function OrZero(x: Option<real>): (r: real)
    ensures x.Some? ==> r == x.value
    ensures x.None? ==> r == 0.0
  {
    if x.Some? then x.value else 0.0
  }

  // ------------------------------------------------------------ the sample figures

  const DefaultPerformance: seq<Point> := [Point("2024-03-15", 85.0, 45.0), Point("2024-03-10", 78.0, 40.0),
                                           Point("2024-03-05", 82.0, 50.0)]

  const TechnicalName := "Technical Knowledge"
  const CommunicationName := "Communication"
  const ProblemSolvingName := "Problem Solving"
  const LeadershipName := "Leadership"

  const DefaultSkills: seq<Skill> := [Skill(TechnicalName, 85), Skill(CommunicationName, 78), Skill(ProblemSolvingName, 82),
                                      Skill(LeadershipName, 75)]

  const DefaultCommunication := Communication(85, 78, 82, 75)

  const DefaultRecommendations: seq<Recommendation> :=
    [Recommendation("Improve Technical Depth", "Focus on deepening your understanding of core concepts."),
     Recommendation("Reduce Filler Words", "Practice speaking more concisely and confidently."),
     Recommendation("Enhance Problem-Solving Approach", "Structure your problem-solving process more clearly.")]

  const DefaultLatest := Interview("1", "2024-03-15", Some(85.0), Some(45.0))

  const LoadError := "Failed to load analysis data"

  // ------------------------------------------------------------ performance

  /** The performance chart: one point per interview, in order, its date from `dateLabel` (the locale formatting). */
  function PerformanceOf(interviews: seq<Interview>, dateLabel: string -> string): (p: seq<Point>)
    ensures |p| == |interviews|
    ensures forall k :: 0 <= k < |p| ==>
              p[k] == Point(dateLabel(interviews[k].createdAt), OrZero(interviews[k].score), OrZero(interviews[k].duration))
  {
    Map(interviews, (i: Interview) => Point(dateLabel(i.createdAt), OrZero(i.score), OrZero(i.duration)))
  }

  // ------------------------------------------------------------ the averages

  function ResponseQuality(f: Feedback): real { OrZero(f.responseQuality) }
  function Clarity(f: Feedback): real { OrZero(f.clarityScore) }
  function Structure(f: Feedback): real { OrZero(f.answerStructure) }
  function Engagement(f: Feedback): real { OrZero(f.engagementScore) }
  function EyeContact(f: Feedback): real { OrZero(f.eyeContactScore) }

  /** The five running totals the two `reduce` calls keep, one per feedback score. */
  datatype Totals = Totals(responseQuality: real, clarity: real, structure: real, engagement: real, eyeContact: real)

  /** The totals over a list of feedback: the sum of each score, a missing score counting 0. */
  function TotalsOf(feedback: seq<Feedback>): Totals
  {
    Totals(Sum(Map(feedback, ResponseQuality)), Sum(Map(feedback, Clarity)), Sum(Map(feedback, Structure)),
           Sum(Map(feedback, Engagement)), Sum(Map(feedback, EyeContact)))
  }

  /** One step of the `reduce` calls: each running total gains the row's score. */
  function AddRow(t: Totals, f: Feedback): Totals
  {
    Totals(t.responseQuality + ResponseQuality(f), t.clarity + Clarity(f), t.structure + Structure(f),
           t.engagement + Engagement(f), t.eyeContact + EyeContact(f))
  }

  /** The `reduce` loops: each feedback row adds its scores to the running totals. */
  method SumFeedback(feedback: seq<Feedback>) returns (acc: Totals)
    ensures acc == TotalsOf(feedback)
  {
    acc := Totals(0.0, 0.0, 0.0, 0.0, 0.0);
    var i := 0;
    while i < |feedback|
      invariant 0 <= i <= |feedback|
      invariant acc == TotalsOf(feedback[..i])
    {
      assert AddRow(acc, feedback[i]) == TotalsOf(feedback[..i + 1]) by {
        StepTotals(feedback, i);
      }
      acc := AddRow(acc, feedback[i]);
      i := i + 1;
    }
    assert feedback[..i] == feedback;
  }

  /** One more row of feedback adds its own scores to the totals. */
  lemma StepTotals(feedback: seq<Feedback>, i: nat)
    requires i < |feedback|
    ensures TotalsOf(feedback[..i + 1]) == AddRow(TotalsOf(feedback[..i]), feedback[i])
  {
    assert feedback[..i + 1][..i] == feedback[..i];
  }

  /** `Math.round(total / (feedbackData.length || 1))`. */
  function Mean(total: real, n: nat): (r: int)
  {
    Round(total / (if n == 0 then 1 else n) as real)
  }

  /** The four skill bars: technical from response quality, communication from clarity, problem solving from structure, leadership from engagement. */
  function SkillsOf(t: Totals, n: nat): (s: seq<Skill>)
    ensures |s| == 4
    ensures s[0].name == TechnicalName && s[1].name == CommunicationName
    ensures s[2].name == ProblemSolvingName && s[3].name == LeadershipName
  {
    [Skill(TechnicalName, Mean(t.responseQuality, n)), Skill(CommunicationName, Mean(t.clarity, n)),
     Skill(ProblemSolvingName, Mean(t.structure, n)), Skill(LeadershipName, Mean(t.engagement, n))]
  }

  /** The four communication figures: clarity, structure, examples from response quality, body language from eye contact. */
  function CommunicationOf(t: Totals, n: nat): Communication
  {
    Communication(Mean(t.clarity, n), Mean(t.structure, n), Mean(t.responseQuality, n), Mean(t.eyeContact, n))
  }

  /**
   * Three of the skill bars repeat communication figures: technical knowledge is the examples
   * figure, communication the clarity figure and problem solving the structure figure.
   */
  lemma SkillsRepeatCommunication(t: Totals, n: nat)
    ensures SkillsOf(t, n)[0].value == CommunicationOf(t, n).examples
    ensures SkillsOf(t, n)[1].value == CommunicationOf(t, n).clarity
    ensures SkillsOf(t, n)[2].value == CommunicationOf(t, n).structure
  {
  }

  /** Each average of non-empty feedback is the rounded mean score, as the dashboard figures round theirs. */
  lemma MeanIsAverage(feedback: seq<Feedback>, score: Feedback -> real)
    requires |feedback| > 0
    ensures Mean(Sum(Map(feedback, score)), |feedback|) == AverageScore(Map(feedback, score))
  {
  }

  /** Scores between two whole numbers give averages between them. */
  lemma AveragesWithin(feedback: seq<Feedback>, score: Feedback -> real, lo: int, hi: int)
    requires |feedback| > 0
    requires forall k :: 0 <= k < |feedback| ==> lo as real <= score(feedback[k]) <= hi as real
    ensures lo <= Mean(Sum(Map(feedback, score)), |feedback|) <= hi
  {
    MeanIsAverage(feedback, score);
    AverageBounded(Map(feedback, score), lo, hi);
  }

  /** A total of `n` scores from 0 to 100 has a rounded mean from 0 to 100. */
  lemma MeanWithinPercent(total: real, n: nat)
    requires n > 0 && 0.0 <= total <= n as real * 100.0
    ensures 0 <= Mean(total, n) <= 100
  {
    QuotientAtMost(total, n as real, 100.0);
    QuotientAtLeast(total, n as real, 0.0);
  }

  /** Scores from 0 to 100 add up to a total from 0 to 100 per score. */
  lemma TotalWithinPercent(feedback: seq<Feedback>, score: Feedback -> real)
    requires forall k :: 0 <= k < |feedback| ==> 0.0 <= score(feedback[k]) <= 100.0
    ensures 0.0 <= Sum(Map(feedback, score)) <= |feedback| as real * 100.0
  {
    var xs := Map(feedback, score);
    assert forall k :: 0 <= k < |xs| ==> 0.0 <= xs[k] <= 100.0;
    SumAtMost(xs, 100.0);
    SumAtLeast(xs, 0.0);
  }

  /** Scores from 0 to 100 give totals from 0 to 100 per feedback row. */
  lemma TotalsWithinPercent(feedback: seq<Feedback>)
    requires forall k :: 0 <= k < |feedback| ==> 0.0 <= ResponseQuality(feedback[k]) <= 100.0
    requires forall k :: 0 <= k < |feedback| ==> 0.0 <= Clarity(feedback[k]) <= 100.0
    requires forall k :: 0 <= k < |feedback| ==> 0.0 <= Structure(feedback[k]) <= 100.0
    requires forall k :: 0 <= k < |feedback| ==> 0.0 <= Engagement(feedback[k]) <= 100.0
    ensures var t := TotalsOf(feedback); var m := |feedback| as real * 100.0;
            0.0 <= t.responseQuality <= m && 0.0 <= t.clarity <= m && 0.0 <= t.structure <= m && 0.0 <= t.engagement <= m
  {
    TotalWithinPercent(feedback, ResponseQuality);
    TotalWithinPercent(feedback, Clarity);
    TotalWithinPercent(feedback, Structure);
    TotalWithinPercent(feedback, Engagement);
  }

  /** Totals from 0 to 100 per row give skill bars from 0 to 100. */
  lemma BarsWithinPercent(t: Totals, n: nat)
    requires n > 0
    requires var m := n as real * 100.0;
             0.0 <= t.responseQuality <= m && 0.0 <= t.clarity <= m && 0.0 <= t.structure <= m && 0.0 <= t.engagement <= m
    ensures forall s <- SkillsOf(t, n) :: 0 <= s.value <= 100
  {
    MeanWithinPercent(t.responseQuality, n);
    MeanWithinPercent(t.clarity, n);
    MeanWithinPercent(t.structure, n);
    MeanWithinPercent(t.engagement, n);
  }

  /** Scores from 0 to 100 give skill bars from 0 to 100. */
  lemma SkillsWithinPercent(feedback: seq<Feedback>)
    requires |feedback| > 0
    requires forall k :: 0 <= k < |feedback| ==> 0.0 <= ResponseQuality(feedback[k]) <= 100.0
    requires forall k :: 0 <= k < |feedback| ==> 0.0 <= Clarity(feedback[k]) <= 100.0
    requires forall k :: 0 <= k < |feedback| ==> 0.0 <= Structure(feedback[k]) <= 100.0
    requires forall k :: 0 <= k < |feedback| ==> 0.0 <= Engagement(feedback[k]) <= 100.0
    ensures forall s <- SkillsOf(TotalsOf(feedback), |feedback|) :: 0 <= s.value <= 100
  {
    TotalsWithinPercent(feedback);
    BarsWithinPercent(TotalsOf(feedback), |feedback|);
  }

  // ------------------------------------------------------------ recommendations

  /** `Recommendation <k>`, numbered from 1. */
  function TitleOf(k: nat): string
  {
    "Recommendation " + Decimal(k + 1)
  }

  /**
   * The latest feedback's advice texts as numbered recommendations, in order; the sample
   * recommendations when it has no list. An empty list is kept: it is truthy.
   */
  function RecommendationsOf(latest: Feedback): (r: seq<Recommendation>)
    ensures latest.feedbackText.None? ==> r == DefaultRecommendations
    ensures latest.feedbackText.Some? ==>
              |r| == |latest.feedbackText.value| &&
              forall k :: 0 <= k < |r| ==> r[k] == Recommendation(TitleOf(k), latest.feedbackText.value[k])
  {
    if latest.feedbackText.None? then DefaultRecommendations
    else
      var texts := latest.feedbackText.value;
      seq(|texts|, k requires 0 <= k < |texts| => Recommendation(TitleOf(k), texts[k]))
  }

  /** The titles tell the recommendations apart: the number after `Recommendation ` reads back as the position plus one. */
  lemma TitlesNumbered(k: nat)
    ensures TitleOf(k)[..15] == "Recommendation "
    ensures DecimalValue(TitleOf(k)[15..]) == k + 1
  {
    assert TitleOf(k)[15..] == Decimal(k + 1);
    DecimalRoundTrip(k + 1);
  }

  /** Different positions have different titles. */
  lemma TitlesDistinct(j: nat, k: nat)
    requires j != k
    ensures TitleOf(j) != TitleOf(k)
  {
    TitlesNumbered(j);
    TitlesNumbered(k);
  }

  // ------------------------------------------------------------ the hook

  /** A read's answer: its rows (`null` as `None`), or an error. */
  datatype Rows<T> = Rows(data: Option<seq<T>>) | ReadError

  predicate HasRows<T>(r: Rows<T>)
  {
    r.Rows? && r.data.Some? && r.data.value != []
  }

  /** The figures the page shows. */
  datatype Figures = Figures(performance: seq<Point>, skills: seq<Skill>, communication: Communication,
                             recommendations: seq<Recommendation>, latest: Option<Interview>)

  const DefaultFigures := Figures(DefaultPerformance, DefaultSkills, DefaultCommunication, DefaultRecommendations,
                                  Some(DefaultLatest))

  /** What one fetch does to the figures: keep them and show an error or none, or replace them. */
  datatype Update = Keep(error: Option<string>) | Replace(figures: Figures)

  /**
   * The fetch's effect once a user is signed in and the backend configured. Either read
   * failing shows the load error; no interviews, or interviews without feedback, keep the
   * figures; otherwise the figures are computed from both lists.
   */
  function UpdateOf(interviews: Rows<Interview>, feedback: Rows<Feedback>, dateLabel: string -> string): (u: Update)
    ensures u.Replace? <==> HasRows(interviews) && HasRows(feedback)
    ensures u == Keep(Some(LoadError)) <==> interviews.ReadError? || (HasRows(interviews) && feedback.ReadError?)
    ensures u.Keep? ==> u.error.None? || u.error == Some(LoadError)
  {
    if interviews.ReadError? then Keep(Some(LoadError))
    else if !HasRows(interviews) then Keep(None)
    else if feedback.ReadError? then Keep(Some(LoadError))
    else if !HasRows(feedback) then Keep(None)
    else Replace(FiguresOf(interviews.data.value, feedback.data.value, dateLabel))
  }

  /** The figures computed from the interviews and their feedback. */
  function FiguresOf(rows: seq<Interview>, fb: seq<Feedback>, dateLabel: string -> string): Figures
    requires rows != [] && fb != []
  {
    var totals := TotalsOf(fb);
    Figures(PerformanceOf(rows, dateLabel), SkillsOf(totals, |fb|), CommunicationOf(totals, |fb|),
            RecommendationsOf(fb[0]), Some(rows[|rows| - 1]))
  }

  /**
   * On replacement the chart has one point per interview, the recommendations are those of
   * the first (newest) feedback row, and the latest interview is the last (newest) row.
   */
  lemma ReplacedFigures(interviews: Rows<Interview>, feedback: Rows<Feedback>, dateLabel: string -> string)
    requires HasRows(interviews) && HasRows(feedback)
    ensures var rows := interviews.data.value; var fb := feedback.data.value;
            var f := UpdateOf(interviews, feedback, dateLabel).figures;
            |f.performance| == |rows| &&
            (forall k :: 0 <= k < |rows| ==>
               f.performance[k].date == dateLabel(rows[k].createdAt) && f.performance[k].score == OrZero(rows[k].score)) &&
            f.recommendations == RecommendationsOf(fb[0]) &&
            f.latest == Some(rows[|rows| - 1])
  {
  }

  /** The feedback is read only when there are interviews: without any, its answer makes no difference. */
  lemma FeedbackIgnoredWithoutInterviews(interviews: Rows<Interview>, a: Rows<Feedback>, b: Rows<Feedback>,
                                         dateLabel: string -> string)
    requires !HasRows(interviews)
    ensures UpdateOf(interviews, a, dateLabel) == UpdateOf(interviews, b, dateLabel)
  {
  }

  /** The skill bars and communication figures on replacement are the rounded means of the feedback scores. */
  lemma ReplacedAverages(interviews: Rows<Interview>, feedback: Rows<Feedback>, dateLabel: string -> string)
    requires HasRows(interviews) && HasRows(feedback)
    ensures var fb := feedback.data.value; var f := UpdateOf(interviews, feedback, dateLabel).figures;
            f.skills == [Skill(TechnicalName, AverageScore(Map(fb, ResponseQuality))),
                         Skill(CommunicationName, AverageScore(Map(fb, Clarity))),
                         Skill(ProblemSolvingName, AverageScore(Map(fb, Structure))),
                         Skill(LeadershipName, AverageScore(Map(fb, Engagement)))] &&
            f.communication == Communication(AverageScore(Map(fb, Clarity)), AverageScore(Map(fb, Structure)),
                                             AverageScore(Map(fb, ResponseQuality)), AverageScore(Map(fb, EyeContact)))
  {
    var fb := feedback.data.value;
    MeanIsAverage(fb, ResponseQuality);
    MeanIsAverage(fb, Clarity);
    MeanIsAverage(fb, Structure);
    MeanIsAverage(fb, Engagement);
    MeanIsAverage(fb, EyeContact);
  }

  class Analysis {
    var performanceData: seq<Point>
    var skillsData: seq<Skill>
    var communicationSkills: Communication
    var recommendations: seq<Recommendation>
    var latestInterview: Option<Interview>
    var loading: bool
    var error: Option<string>

    /** The figures now shown. */
    function Shown(): Figures
      reads this
    {
      Figures(performanceData, skillsData, communicationSkills, recommendations, latestInterview)
    }

    /** The first state: the sample figures, loading. */
    constructor ()
      ensures Shown() == DefaultFigures && loading && error.None?
    {
      performanceData := DefaultPerformance;
      skillsData := DefaultSkills;
      communicationSkills := DefaultCommunication;
      recommendations := DefaultRecommendations;
      latestInterview := Some(DefaultLatest);
      loading := true;
      error := None;
    }

    /**
     * The fetch effect. Without a user or a configured backend, loading ends and nothing else
     * changes. Otherwise the figures and the error change as `UpdateOf` says, and loading ends.
     */
    method Fetch(signedIn: bool, configured: bool, interviews: Rows<Interview>, feedback: Rows<Feedback>,
                 dateLabel: string -> string)
      modifies this
      ensures !loading
      ensures !signedIn || !configured ==> Shown() == old(Shown()) && error == old(error)
      ensures signedIn && configured ==>
                match UpdateOf(interviews, feedback, dateLabel)
                case Keep(e) => Shown() == old(Shown()) && error == e
                case Replace(f) => Shown() == f && error.None?
    {
      if !signedIn || !configured {
        loading := false;
        return;
      }
      loading := true;
      error := None;
      if interviews.ReadError? {
        error := Some(LoadError);
        loading := false;
        return;
      }
      if interviews.data.None? || interviews.data.value == [] {
        loading := false;
        return;
      }
      var rows := interviews.data.value;
      var performance := PerformanceOf(rows, dateLabel);
      if feedback.ReadError? {
        error := Some(LoadError);
        loading := false;
        return;
      }
      if feedback.data.None? || feedback.data.value == [] {
        loading := false;
        return;
      }
      var fb := feedback.data.value;
      var totals := SumFeedback(fb);
      var figures := Figures(performance, SkillsOf(totals, |fb|), CommunicationOf(totals, |fb|),
                             RecommendationsOf(fb[0]), Some(rows[|rows| - 1]));
      assert figures == FiguresOf(rows, fb, dateLabel);
      Show(figures);
      loading := false;
    }

    /** The figures' five setters, called together. */
    method Show(figures: Figures)
      modifies this
      ensures Shown() == figures && loading == old(loading) && error == old(error)
    {
      performanceData := figures.performance;
      skillsData := figures.skills;
      communicationSkills := figures.communication;
      recommendations := figures.recommendations;
      latestInterview := figures.latest;
    }
  }
}
