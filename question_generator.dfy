// The client-side question generator: a fixed base list, the questions of the requested
// domain, one generated question per skill, per past position and per project, filtered to
// the requested difficulty and shuffled.

module QuestionGenerator {
  import opened JsCommon
  import opened Seqs

  datatype Difficulty = Easy | Medium | Hard

  datatype Question = Question(id: string, text: string, category: string, difficulty: Difficulty,
                               domain: string, skills: seq<string>)

  datatype Experience = Experience(company: string, position: string, duration: string, description: string)

  datatype Project = Project(name: string, description: string, technologies: seq<string>)

  datatype Params = Params(skills: seq<string>, experience: seq<Experience>, projects: seq<Project>,
                           difficulty: Difficulty, domain: string)

  // ------------------------------------------------------------ the fixed questions

  const BaseQuestions: seq<Question> := [
    Question("1", "Tell me about yourself and your experience.", "general", Easy, "general", ["communication"]),
    Question("2", "What are your greatest strengths and weaknesses?", "self-assessment", Medium, "general",
             ["self-awareness", "communication"]),
    Question("3", "Why do you want to work for this company?", "motivation", Medium, "general",
             ["research", "communication"])]

  const FrontendQuestions: seq<Question> := [
    Question("f1", "Explain the concept of virtual DOM in React.", "technical", Medium, "frontend",
             ["react", "javascript"]),
    Question("f2", "How do you handle state management in large applications?", "technical", Hard, "frontend",
             ["state-management", "architecture"])]

  const BackendQuestions: seq<Question> := [
    Question("b1", "Explain the difference between REST and GraphQL.", "technical", Medium, "backend",
             ["api-design", "graphql"]),
    Question("b2", "How do you handle database scaling?", "technical", Hard, "backend", ["database", "scaling"])]

  /** `domainSpecificQuestions`: the object's own keys and their question lists. */
  const DomainTable: map<string, seq<Question>> := map["frontend" := FrontendQuestions, "backend" := BackendQuestions]

  /**
   * The names every object literal inherits from `Object.prototype`; the `in` operator finds
   * them on the domain table too, where they hold functions (or, for `__proto__`, the
   * prototype object), none of which can be spread into a list.
   */
  const InheritedKeys: set<string> := {"constructor", "hasOwnProperty", "isPrototypeOf", "propertyIsEnumerable",
    "toLocaleString", "toString", "valueOf", "__proto__", "__defineGetter__", "__defineSetter__",
    "__lookupGetter__", "__lookupSetter__"}

  /**
   * The domain block as written: `params.domain in table` is also true for an inherited name,
   * and spreading what that name holds throws a TypeError (`None`).
   */
  function DomainBlockAsWritten(domain: string): (r: Option<seq<Question>>)
    ensures r.None? <==> domain in InheritedKeys
    ensures r.Some? && r.value != [] <==> domain in DomainTable
  {
    if domain in DomainTable then Some(DomainTable[domain])
    else if domain in InheritedKeys then None
    else Some([])
  }

  /** As written, asking for the domain "toString" makes question generation throw. */
  lemma InheritedDomainThrows()
    ensures DomainBlockAsWritten("toString") == None
  {
    assert "toString" in InheritedKeys;
  }

  /** The domain block looked up among the table's own keys: the domain's questions, or none. */
  function DomainBlock(domain: string): (r: seq<Question>)
    ensures r != [] <==> domain in DomainTable
    ensures forall k :: 0 <= k < |r| ==> r[k].domain == domain && r[k].difficulty != Easy
  {
    if domain in DomainTable then DomainTable[domain] else []
  }

  /** Where the own-key lookup and the code as written agree: every name but the inherited ones. */
  lemma DomainBlockAgrees(domain: string)
    requires domain !in InheritedKeys
    ensures DomainBlockAsWritten(domain) == Some(DomainBlock(domain))
  {
  }

  // ------------------------------------------------------------ the generated questions

  function SkillQuestion(skill: string): Question
  {
    Question("skill-" + skill, "How do you apply " + skill + " in your work?", "technical", Medium, "general", [skill])
  }

  function ExperienceQuestion(e: Experience): Question
  {
    Question("exp-" + e.company, "Tell me about your experience at " + e.company + " as " + e.position + ".",
             "experience", Medium, "general", [])
  }

  function ProjectQuestion(p: Project): Question
  {
    Question("proj-" + p.name, "Tell me about your project " + p.name + ". What challenges did you face?",
             "project", Medium, "general", p.technologies)
  }

  /** `generateSkillSpecificQuestions`: one medium question per skill, with id `skill-<skill>`, in order. */
  method GenerateSkillSpecificQuestions(skills: seq<string>) returns (questions: seq<Question>)
    ensures |questions| == |skills|
    ensures forall k :: 0 <= k < |skills| ==>
              questions[k].id == "skill-" + skills[k] && questions[k].difficulty == Medium &&
              questions[k].skills == [skills[k]]
    ensures questions == Map(skills, SkillQuestion)
  {
    questions := PushEach([], skills, SkillQuestion);
  }

  /** `generateExperienceQuestions`: one medium question per position, with id `exp-<company>`. */
  method GenerateExperienceQuestions(experience: seq<Experience>) returns (questions: seq<Question>)
    ensures |questions| == |experience|
    ensures forall k :: 0 <= k < |experience| ==>
              questions[k].id == "exp-" + experience[k].company && questions[k].difficulty == Medium
    ensures questions == Map(experience, ExperienceQuestion)
  {
    questions := PushEach([], experience, ExperienceQuestion);
  }

  /** `generateProjectQuestions`: one medium question per project, tagged with its technologies. */
  method GenerateProjectQuestions(projects: seq<Project>) returns (questions: seq<Question>)
    ensures |questions| == |projects|
    ensures forall k :: 0 <= k < |projects| ==>
              questions[k].id == "proj-" + projects[k].name && questions[k].difficulty == Medium &&
              questions[k].skills == projects[k].technologies
    ensures questions == Map(projects, ProjectQuestion)
  {
    questions := PushEach([], projects, ProjectQuestion);
  }

  /** Every question the generator makes up itself is of medium difficulty. */
  function Generated(params: Params): (r: seq<Question>)
    ensures forall k :: 0 <= k < |r| ==> r[k].difficulty == Medium
  {
    Map(params.skills, SkillQuestion) + Map(params.experience, ExperienceQuestion) +
    Map(params.projects, ProjectQuestion)
  }

  /** The unfiltered list: base questions, the domain block, then the generated questions. */
  function Pool(params: Params): seq<Question>
  {
    BaseQuestions + DomainBlock(params.domain) + Generated(params)
  }

  function HasDifficulty(d: Difficulty): Question -> bool
  {
    (q: Question) => q.difficulty == d
  }

  // ------------------------------------------------------------ the shuffle

  /**
   * `shuffleArray`: copy the list into a fresh array and, from the last index down to 1,
   * swap each element with one at a random index no greater than it. The random index is a
   * nondeterministic choice; the result is a permutation of the input, which is left alone.
   */
  method ShuffleArray<T>(input: seq<T>) returns (r: seq<T>)
    ensures |r| == |input| && multiset(r) == multiset(input)
  {
    var a := new T[|input|](k requires 0 <= k < |input| => input[k]);
    assert a[..] == input;
    var i := a.Length - 1;
    while i > 0
      invariant -1 <= i < a.Length
      invariant multiset(a[..]) == multiset(input)
      decreases i
    {
      var j :| 0 <= j <= i;
      ghost var before := a[..];
      a[i], a[j] := a[j], a[i];
      assert a[..] == before[i := before[j]][j := before[i]];
      i := i - 1;
    }
    r := a[..];
  }

  /**
   * `generateQuestions`: all of the pool's questions of the requested difficulty, in some
   * order; domain questions only for a domain the table has.
   */
  method GenerateQuestions(params: Params) returns (questions: seq<Question>)
    ensures multiset(questions) == multiset(Filter(Pool(params), HasDifficulty(params.difficulty)))
    ensures forall k :: 0 <= k < |questions| ==> questions[k].difficulty == params.difficulty
  {
    var all := BaseQuestions;
    if params.domain in DomainTable {
      all := all + DomainTable[params.domain];
    }
    assert all == BaseQuestions + DomainBlock(params.domain);
    var skillQuestions := GenerateSkillSpecificQuestions(params.skills);
    var experienceQuestions := GenerateExperienceQuestions(params.experience);
    var projectQuestions := GenerateProjectQuestions(params.projects);
    assert skillQuestions + experienceQuestions + projectQuestions == Generated(params);
    assert all + skillQuestions + experienceQuestions + projectQuestions == Pool(params) by {
      AppendThree(all, skillQuestions, experienceQuestions, projectQuestions);
    }
    all := all + skillQuestions;
    all := all + experienceQuestions;
    all := all + projectQuestions;
    var filtered := Filter(all, HasDifficulty(params.difficulty));
    questions := ShuffleArray(filtered);
    PermutationOfFiltered(questions, all, HasDifficulty(params.difficulty));
  }

  lemma AppendThree<T>(a: seq<T>, b: seq<T>, c: seq<T>, d: seq<T>)
    ensures a + b + c + d == a + (b + c + d)
  {
  }

  /** Every element of a permutation of a filtered list passes the filter. */
  lemma PermutationOfFiltered<T>(r: seq<T>, s: seq<T>, p: T -> bool)
    requires multiset(r) == multiset(Filter(s, p))
    ensures forall k :: 0 <= k < |r| ==> p(r[k])
  {
    forall k | 0 <= k < |r|
      ensures p(r[k])
    {
      assert r[k] in multiset(Filter(s, p));
      var j :| 0 <= j < |Filter(s, p)| && Filter(s, p)[j] == r[k];
    }
  }

  /** Filtering three lists end to end when nothing in the last two passes. */
  lemma FilterOnlyFirstPart<T>(b: seq<T>, d: seq<T>, g: seq<T>, p: T -> bool)
    requires forall k :: 0 <= k < |d| ==> !p(d[k])
    requires forall k :: 0 <= k < |g| ==> !p(g[k])
    ensures Filter(b + d + g, p) == Filter(b, p)
  {
    FilterAppend(b + d, g, p);
    FilterAppend(b, d, p);
    FilterNone(d, p);
    FilterNone(g, p);
  }

  /** Of a list whose first element alone passes, filtering keeps just that one. */
  lemma {:induction false} FilterFirstOnly<T>(s: seq<T>, p: T -> bool)
    requires |s| >= 1 && p(s[0]) && forall k :: 1 <= k < |s| ==> !p(s[k])
    ensures Filter(s, p) == [s[0]]
  {
    assert s == [s[0]] + s[1..];
    FilterAppend([s[0]], s[1..], p);
    FilterAll([s[0]], p);
    FilterNone(s[1..], p);
  }

  /** Only the first base question is easy. */
  lemma EasyBaseQuestions()
    ensures Filter(BaseQuestions, HasDifficulty(Easy)) == [BaseQuestions[0]]
  {
    var b := BaseQuestions;
    assert |b| == 3 && b[0].difficulty == Easy && b[1].difficulty == Medium && b[2].difficulty == Medium;
    FilterFirstOnly(b, HasDifficulty(Easy));
  }

  /** An easy request gets exactly the one easy base question, whatever else it names. */
  lemma EasyRequestGetsBaseOnly(params: Params)
    ensures Filter(Pool(params), HasDifficulty(Easy)) == [BaseQuestions[0]]
  {
    FilterOnlyFirstPart(BaseQuestions, DomainBlock(params.domain), Generated(params), HasDifficulty(Easy));
    EasyBaseQuestions();
  }

  /** No base question is hard. */
  lemma NoHardBaseQuestion()
    ensures forall k :: 0 <= k < |BaseQuestions| ==> !HasDifficulty(Hard)(BaseQuestions[k])
  {
  }

  /** A hard request gets the hard question of the domain, if the domain has one, and nothing else. */
  lemma HardRequestGetsDomainOnly(params: Params)
    ensures Filter(Pool(params), HasDifficulty(Hard)) == Filter(DomainBlock(params.domain), HasDifficulty(Hard))
  {
    var p := HasDifficulty(Hard);
    var b, d, g := BaseQuestions, DomainBlock(params.domain), Generated(params);
    FilterAppend(b + d, g, p);
    FilterAppend(b, d, p);
    NoHardBaseQuestion();
    FilterNone(b, p);
    FilterNone(g, p);
  }
}
