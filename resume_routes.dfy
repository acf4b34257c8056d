// The resume-and-GitHub route: skills are the keywords the resume mentions as whole
// words, the GitHub user comes from the profile URL, and the questions are two per skill
// and two per repository (at most five), cut to twenty.

module ResumeRoutes {
  import opened JsCommon
  import opened JsText
  import opened Seqs

  // ------------------------------------------------------------ skills

  const SkillKeywords: seq<string> := ["javascript", "typescript", "react", "node", "express", "python", "java",
    "docker", "kubernetes", "aws", "azure", "gcp", "sql", "mongodb", "postgres", "graphql", "tailwind", "css", "html"]

  /**
   * `new RegExp('\\b' + kw + '\\b', 'i')` matches at `i`: the text, case folded, spells the
   * keyword there, with no word character just before or just after it. (Every keyword
   * starts and ends with a letter, so these are the two word boundaries.)
   */
  predicate WholeWordAt(text: string, kw: string, i: nat)
  {
    OccursAt(Lower(text), kw, i) &&
    (i == 0 || !IsWordChar(text[i - 1])) &&
    (i + |kw| == |text| || !IsWordChar(text[i + |kw|]))
  }

  /** `re.test(text)` for the keyword's whole-word pattern. */
  predicate WholeWord(text: string, kw: string)
  {
    exists i | 0 <= i <= |text| - |kw| :: WholeWordAt(text, kw, i)
  }

  /** The keyword test for one resume text, as a predicate on keywords. */
  function Mentions(text: string): string -> bool
  {
    kw => WholeWord(text, kw)
  }

  /** `extractSkills`: push every keyword the text mentions, then drop repeats through a `Set`. */
  method ExtractSkills(text: string) returns (skills: seq<string>)
    ensures skills == Dedup(Filter(SkillKeywords, Mentions(text)))
  {
    var found := MentionedKeywords(text, SkillKeywords);
    skills := Dedup(found);
  }

  /** The keyword loop of `extractSkills`: the keywords of the list the text mentions, in list order. */
  method MentionedKeywords(text: string, keywords: seq<string>) returns (found: seq<string>)
    ensures found == Filter(keywords, Mentions(text))
  {
    found := [];
    for i := 0 to |keywords|
      invariant found == Filter(keywords[..i], Mentions(text))
    {
      var kw := keywords[i];
      assert keywords[..i + 1][..i] == keywords[..i];
      if WholeWord(text, kw) {
        found := found + [kw];
      }
    }
    assert keywords[..|keywords|] == keywords;
  }

  /**
   * The extracted skills are exactly the keywords the text mentions as whole words, with no
   * repeats and in keyword-list order.
   */
  lemma ExtractedSkills(text: string)
    ensures var skills := Dedup(Filter(SkillKeywords, Mentions(text)));
      NoDuplicates(skills) && IsSubsequence(skills, SkillKeywords) &&
      (forall k :: 0 <= k < |skills| ==> WholeWord(text, skills[k])) &&
      (forall k :: 0 <= k < |SkillKeywords| && WholeWord(text, SkillKeywords[k]) ==> SkillKeywords[k] in skills)
  {
    var found := Filter(SkillKeywords, Mentions(text));
    DedupNoDuplicates(found);
    DedupIsSubsequence(found);
    FilterIsSubsequence(SkillKeywords, Mentions(text));
    SubsequenceTransitive(Dedup(found), found, SkillKeywords);
    forall k | 0 <= k < |SkillKeywords| && WholeWord(text, SkillKeywords[k])
      ensures SkillKeywords[k] in Dedup(found)
    {
      assert Mentions(text)(SkillKeywords[k]);
      var j :| 0 <= j < |found| && found[j] == SkillKeywords[k];
    }
  }

  // ------------------------------------------------------------ questions

  /** A repository as the route keeps it from the GitHub listing. */
  datatype Repo = Repo(name: string, description: Option<string>)

  /** The four question templates; `Text` gives the wording, with the skill or repository name inserted. */
  datatype Question =
    | Challenge(skill: string)
    | Optimize(skill: string)
    | Architecture(repoName: string)
    | Tradeoffs(repoName: string)

  function Text(q: Question): string
  {
    match q
    case Challenge(s) => "Explain a challenging problem you solved using " + s + "."
    case Optimize(s) => "How do you optimize performance in " + s + "?"
    case Architecture(n) => "Walk me through the architecture of your project \"" + n + "\"."
    case Tradeoffs(n) => "What trade-offs did you make while building \"" + n + "\"?"
  }

  function ChallengeQuestion(s: string): Question
  {
    Challenge(s)
  }

  function OptimizeQuestion(s: string): Question
  {
    Optimize(s)
  }

  function ArchitectureQuestion(r: Repo): Question
  {
    Architecture(r.name)
  }

  function TradeoffQuestion(r: Repo): Question
  {
    Tradeoffs(r.name)
  }

  /** The question list before the cut to twenty. */
  function AllQuestions(skills: seq<string>, repos: seq<Repo>): seq<Question>
  {
    Pairs(skills, ChallengeQuestion, OptimizeQuestion) + Pairs(First(repos, 5), ArchitectureQuestion, TradeoffQuestion)
  }

  /** `generateQuestions`: push two per skill, two per repository of the first five, keep twenty. */
  method GenerateQuestions(skills: seq<string>, repos: seq<Repo>) returns (questions: seq<Question>)
    ensures questions == First(AllQuestions(skills, repos), 20)
  {
    var all := PushPairs([], skills, ChallengeQuestion, OptimizeQuestion);
    assert all == Pairs(skills, ChallengeQuestion, OptimizeQuestion) by {
      assert [] + Pairs(skills, ChallengeQuestion, OptimizeQuestion) == Pairs(skills, ChallengeQuestion, OptimizeQuestion);
    }
    all := PushPairs(all, First(repos, 5), ArchitectureQuestion, TradeoffQuestion);
    assert all == AllQuestions(skills, repos);
    questions := First(all, 20);
  }

  function MinInt(a: int, b: int): int
  {
    if a <= b then a else b
  }

  /** The cut of two pair lists: item `i` of the first at `2i`, item `j` of the second after the first list. */
  lemma {:induction false} PairsCut<S, T, U>(xs: seq<S>, ys: seq<T>, f1: S -> U, g1: S -> U,
                                            f2: T -> U, g2: T -> U, n: nat)
    ensures var q := First(Pairs(xs, f1, g1) + Pairs(ys, f2, g2), n);
      |q| == MinInt(n, 2 * |xs| + 2 * |ys|) &&
      (forall i :: 0 <= i < |xs| && 2 * i + 1 < n ==> q[2 * i] == f1(xs[i]) && q[2 * i + 1] == g1(xs[i])) &&
      (forall j :: 0 <= j < |ys| && 2 * |xs| + 2 * j + 1 < n ==>
         q[2 * |xs| + 2 * j] == f2(ys[j]) && q[2 * |xs| + 2 * j + 1] == g2(ys[j]))
  {
    var a, b := Pairs(xs, f1, g1), Pairs(ys, f2, g2);
    var q := First(a + b, n);
    assert |a| == 2 * |xs|;
    forall i | 0 <= i < |xs| && 2 * i + 1 < n
      ensures q[2 * i] == f1(xs[i]) && q[2 * i + 1] == g1(xs[i])
    {
      assert q[2 * i] == (a + b)[2 * i] == a[2 * i];
      assert q[2 * i + 1] == (a + b)[2 * i + 1] == a[2 * i + 1];
    }
    forall j | 0 <= j < |ys| && 2 * |xs| + 2 * j + 1 < n
      ensures q[2 * |xs| + 2 * j] == f2(ys[j]) && q[2 * |xs| + 2 * j + 1] == g2(ys[j])
    {
      assert q[|a| + 2 * j] == (a + b)[|a| + 2 * j] == b[2 * j];
      assert q[|a| + 2 * j + 1] == (a + b)[|a| + 2 * j + 1] == b[2 * j + 1];
    }
  }

  /**
   * The shape of the question list: `min(20, 2·|skills| + 2·min(5, |repos|))` questions,
   * skill `i` asking questions `2i` and `2i+1`, and repository `j` the two after all the
   * skill questions, as far as the cut allows.
   */
  lemma QuestionShape(skills: seq<string>, repos: seq<Repo>)
    ensures var q := First(AllQuestions(skills, repos), 20);
      |q| == MinInt(20, 2 * |skills| + 2 * MinInt(5, |repos|)) &&
      (forall i :: 0 <= i < |skills| && 2 * i + 1 < 20 ==>
         q[2 * i] == ChallengeQuestion(skills[i]) && q[2 * i + 1] == OptimizeQuestion(skills[i])) &&
      (forall j :: 0 <= j < MinInt(5, |repos|) && 2 * |skills| + 2 * j + 1 < 20 ==>
         q[2 * |skills| + 2 * j] == ArchitectureQuestion(repos[j]) &&
         q[2 * |skills| + 2 * j + 1] == TradeoffQuestion(repos[j]))
  {
    var five := First(repos, 5);
    PairsCut(skills, five, ChallengeQuestion, OptimizeQuestion, ArchitectureQuestion, TradeoffQuestion, 20);
    assert |five| == MinInt(5, |repos|);
    assert forall j :: 0 <= j < |five| ==> five[j] == repos[j];
  }

  // ------------------------------------------------------------ the GitHub user

  /** The characters the regular-expression `.` does not match. */
  predicate IsLineTerminator(c: char)
  {
    c == '\n' || c == '\r' || c == '\U{2028}' || c == '\U{2029}'
  }

  /**
   * `/github.com\/([^/]+)(?:\/)?/i` matches at `i`: "github", any character but a line
   * terminator (the unescaped `.`), "com" and a slash, case-insensitively, then at least one
   * character that is not a slash.
   */
  predicate MatchAt(url: string, i: nat)
  {
    i + 12 <= |url| && Lower(url[i..i + 6]) == "github" && !IsLineTerminator(url[i + 6]) &&
    Lower(url[i + 7..i + 10]) == "com" && url[i + 10] == '/' && url[i + 11] != '/'
  }

  /** The longest prefix without a slash: what the greedy `[^/]+` captures. */
  function Segment(s: string): (r: string)
    ensures |r| <= |s| && r == s[..|r|] && '/' !in r
    ensures |r| < |s| ==> s[|r|] == '/'
  {
    if s == [] || s[0] == '/' then [] else [s[0]] + Segment(s[1..])
  }

  lemma {:induction false} SegmentOf(u: string, rest: string)
    requires '/' !in u && (rest == [] || rest[0] == '/')
    ensures Segment(u + rest) == u
  {
    if u != [] {
      assert (u + rest)[1..] == u[1..] + rest;
      SegmentOf(u[1..], rest);
    }
  }

  /** The leftmost match position at or after `from`. */
  function FindMatch(url: string, from: nat): (r: Option<nat>)
    ensures r.Some? ==> from <= r.value && MatchAt(url, r.value) &&
                        forall k :: from <= k < r.value ==> !MatchAt(url, k)
    ensures r.None? ==> forall k :: from <= k ==> !MatchAt(url, k)
    decreases |url| - from
  {
    if from + 12 > |url| then None
    else if MatchAt(url, from) then Some(from)
    else FindMatch(url, from + 1)
  }

  /** `match ? match[1] : undefined`: the captured user name of the leftmost match. */
  function GithubUser(url: string): (r: Option<string>)
    ensures r.None? <==> forall k :: !MatchAt(url, k)
    ensures r.Some? ==> r.value != [] && '/' !in r.value &&
                        exists k :: MatchAt(url, k) && r.value == Segment(url[k + 11..])
  {
    match FindMatch(url, 0)
    case None => None
    case Some(k) => Some(Segment(url[k + 11..]))
  }

  /** No match starts inside the scheme: none of its characters folds to the `g` of "github". */
  lemma NoMatchInScheme(url: string)
    requires |url| >= 8 && url[..8] == "https://"
    ensures forall k :: 0 <= k < 8 ==> !MatchAt(url, k)
  {
    forall k | 0 <= k < 8
      ensures !MatchAt(url, k)
    {
      if k + 12 <= |url| {
        assert url[k] == "https://"[k];
        assert Lower(url[k..k + 6])[0] == ToLower(url[k]);
      }
    }
  }

  /** A profile URL `https://github.com/<user>` (optionally followed by a path) yields `<user>`. */
  lemma ProfileUser(user: string, rest: string)
    requires user != [] && '/' !in user && (rest == [] || rest[0] == '/')
    ensures GithubUser("https://github.com/" + user + rest) == Some(user)
  {
    var url := "https://github.com/" + user + rest;
    assert url == "https://github.com/" + (user + rest);
    assert MatchAt(url, 8) by { HostMatches(user + rest); }
    assert FindMatch(url, 0) == Some(8) by { NoMatchInScheme(url); }
    assert url[19..] == user + rest;
    SegmentOf(user, rest);
  }

  /** The pattern matches at the host of a profile URL whose path starts with a name. */
  lemma HostMatches(path: string)
    requires path != [] && path[0] != '/'
    ensures MatchAt("https://github.com/" + path, 8)
  {
    var url := "https://github.com/" + path;
    assert url[8..14] == "github";
    assert url[15..18] == "com";
  }

  // ------------------------------------------------------------ the route

  /** The body fields; `None` is a missing field, and an empty string is just as falsy. */
  datatype ResumeRequest = ResumeRequest(resumePath: Option<string>, githubUrl: Option<string>)

  /** Reading and parsing the PDF: it throws, or it yields a text that may be missing. */
  datatype ReadOutcome = ReadThrows | ReadText(text: Option<string>)

  /** The repository listing request for the user: it throws, answers non-OK, or lists repositories. */
  datatype FetchOutcome = FetchThrows | NotOk | Listed(repos: seq<Repo>)

  datatype Reply =
    | BadRequest(error: string)
    | Questions(skills: seq<string>, repos: seq<Repo>, questions: seq<Question>)
    | Failed(error: string)

  function Status(r: Reply): nat
  {
    match r
    case BadRequest(_) => 400
    case Questions(_, _, _) => 200
    case Failed(_) => 500
  }

  predicate Truthy(s: Option<string>)
  {
    s.Some? && s.value != ""
  }

  const MissingInputs := "resumePath and githubUrl required"
  const AnalyzeFailed := "Failed to analyze inputs"

  /** The repositories the route works with for a URL and a listing outcome, or `None` when the listing throws. */
  function ReposFor(url: string, fetch: FetchOutcome): Option<seq<Repo>>
  {
    if GithubUser(url).None? then Some([])
    else match fetch
      case FetchThrows => None
      case NotOk => Some([])
      case Listed(repos) => Some(repos)
  }

  /**
   * `POST /resume-github`. Both fields are checked before the resume is read; a read, parse
   * or listing that throws ends in a 500. Without a user name in the URL no listing is made.
   */
  method AnalyzeResumeGithub(req: ResumeRequest, read: ReadOutcome, fetch: FetchOutcome) returns (reply: Reply)
    ensures Status(reply) == 400 <==> !Truthy(req.resumePath) || !Truthy(req.githubUrl)
    ensures Status(reply) == 400 ==> reply == BadRequest(MissingInputs)
    ensures Truthy(req.resumePath) && Truthy(req.githubUrl) ==>
      (Status(reply) == 500 <==> read.ReadThrows? || ReposFor(req.githubUrl.value, fetch).None?)
    ensures Status(reply) == 500 ==> reply == Failed(AnalyzeFailed)
    ensures reply.Questions? ==>
      var text := if read.text.Some? then read.text.value else "";
      reply.skills == Dedup(Filter(SkillKeywords, Mentions(text))) &&
      Some(reply.repos) == ReposFor(req.githubUrl.value, fetch) &&
      reply.questions == First(AllQuestions(reply.skills, reply.repos), 20)
  {
    if !Truthy(req.resumePath) || !Truthy(req.githubUrl) {
      return BadRequest(MissingInputs);
    }
    if read.ReadThrows? {
      return Failed(AnalyzeFailed);
    }
    var skills := ExtractSkills(if read.text.Some? then read.text.value else "");
    var repos := ReposFor(req.githubUrl.value, fetch);
    if repos.None? {
      return Failed(AnalyzeFailed);
    }
    var questions := GenerateQuestions(skills, repos.value);
    reply := Questions(skills, repos.value, questions);
  }
}
