// The document-analysis edge function: skills, dated experience lines and education lines
// are picked out of an uploaded resume, and a question list is built from what was found.

module AnalyzeDocument {
  import opened JsCommon
  import opened JsText
  import opened Seqs

  // ------------------------------------------------------------ extraction

  const CommonSkills: seq<string> := ["javascript", "python", "java", "react", "node", "aws", "docker",
    "kubernetes", "sql", "nosql", "mongodb", "machine learning", "ai", "devops", "cloud", "agile"]

  const EducationKeywords: seq<string> := ["bachelor", "master", "phd", "degree", "university"]

  /** The skill test: the case-folded text contains the case-folded skill anywhere. */
  predicate Mentioned(text: string, skill: string)
  {
    Contains(Lower(text), Lower(skill))
  }

  function InText(text: string): string -> bool
  {
    skill => Mentioned(text, skill)
  }

  /** `extractSkills`: the common skills the text contains, as substrings, in list order. */
  function ExtractSkills(text: string): (r: seq<string>)
    ensures forall k :: 0 <= k < |r| ==> Mentioned(text, r[k])
    ensures forall k :: 0 <= k < |CommonSkills| && Mentioned(text, CommonSkills[k]) ==> CommonSkills[k] in r
  {
    Filter(CommonSkills, InText(text))
  }

  /** The skills keep the order of the skill list. */
  lemma SkillsInListOrder(text: string)
    ensures IsSubsequence(ExtractSkills(text), CommonSkills)
  {
    FilterIsSubsequence(CommonSkills, InText(text));
  }

  /** `/\b(20\d{2}|19\d{2})\b/` matches at `i`: "19" or "20", two more digits, word boundaries on both sides. */
  predicate YearAt(line: string, i: nat)
  {
    i + 4 <= |line| &&
    ((line[i] == '2' && line[i + 1] == '0') || (line[i] == '1' && line[i + 1] == '9')) &&
    IsDigit(line[i + 2]) && IsDigit(line[i + 3]) &&
    (i == 0 || !IsWordChar(line[i - 1])) &&
    (i + 4 == |line| || !IsWordChar(line[i + 4]))
  }

  predicate HasYear(line: string)
  {
    exists i | 0 <= i <= |line| - 4 :: YearAt(line, i)
  }

  /** An experience line: it mentions a year and is longer than thirty characters. */
  predicate IsExperienceLine(line: string)
  {
    HasYear(line) && |line| > 30
  }

  predicate IsEducationLine(line: string)
  {
    exists k | 0 <= k < |EducationKeywords| :: Contains(Lower(line), EducationKeywords[k])
  }

  /** `extractExperience`: the lines (split at newlines) that are experience lines, in order. */
  function ExtractExperience(text: string): (r: seq<string>)
    ensures forall k :: 0 <= k < |r| ==> r[k] in Split(text, '\n') && IsExperienceLine(r[k])
    ensures forall k :: 0 <= k < |Split(text, '\n')| && IsExperienceLine(Split(text, '\n')[k]) ==>
              Split(text, '\n')[k] in r
    ensures IsSubsequence(r, Split(text, '\n'))
  {
    var lines := Split(text, '\n');
    var r := Filter(lines, IsExperienceLine);
    FilterIsSubsequence(lines, IsExperienceLine);
    r
  }

  /** `extractEducation`: the lines that contain one of the education keywords, case-insensitively. */
  function ExtractEducation(text: string): (r: seq<string>)
    ensures forall k :: 0 <= k < |r| ==> r[k] in Split(text, '\n') && IsEducationLine(r[k])
    ensures forall k :: 0 <= k < |Split(text, '\n')| && IsEducationLine(Split(text, '\n')[k]) ==>
              Split(text, '\n')[k] in r
    ensures IsSubsequence(r, Split(text, '\n'))
  {
    var lines := Split(text, '\n');
    var r := Filter(lines, IsEducationLine);
    FilterIsSubsequence(lines, IsEducationLine);
    r
  }

  /**
   * A year needs a boundary: gluing a letter or underscore `w` to the front of a line loses
   * the year at its very start, if any, and no other.
   */
  lemma YearNeedsBoundary(w: char, line: string)
    requires IsWordChar(w) && !IsDigit(w)
    ensures HasYear([w] + line) <==> exists i | 1 <= i <= |line| - 4 :: YearAt(line, i)
  {
    var glued := [w] + line;
    if HasYear(glued) {
      var j :| 0 <= j <= |glued| - 4 && YearAt(glued, j);
      assert j >= 1;
      ShiftedYear(w, line, j);
    }
    if exists i | 1 <= i <= |line| - 4 :: YearAt(line, i) {
      var i :| 1 <= i <= |line| - 4 && YearAt(line, i);
      ShiftedYear(w, line, i + 1);
    }
  }

  /** Past the glued character, the glued line has a year where the line had one, one place on. */
  lemma ShiftedYear(w: char, line: string, j: nat)
    requires IsWordChar(w) && 1 <= j
    ensures YearAt([w] + line, j) <==> j >= 2 && YearAt(line, j - 1)
  {
    var glued := [w] + line;
    if j + 4 <= |glued| {
      assert forall k :: 1 <= k < |glued| ==> glued[k] == line[k - 1];
      if j == 1 {
        assert glued[0] == w;
      }
    }
  }

  // ------------------------------------------------------------ questions

  /**
   * The questions the function can ask: two about each skill and eight fixed ones. `Text`
   * gives each its wording.
   */
  datatype Question =
    | DescribeProject(skill: string)
    | ExperienceLevel(skill: string)
    | HardestProject | NewTechnology | TeamConflict
    | EducationFit | Coursework
    | FiveYears | RoleInterest | StayingCurrent

  function Text(q: Question): string
  {
    match q
    case DescribeProject(skill) => "Can you describe a challenging project where you used " + skill + "?"
    case ExperienceLevel(skill) =>
      "What's your experience level with " + skill + " and how have you applied it in your work?"
    case HardestProject =>
      "What was the most challenging project you worked on and how did you overcome the obstacles?"
    case NewTechnology => "Can you describe a situation where you had to learn a new technology quickly?"
    case TeamConflict => "How do you handle conflicts in a team environment?"
    case EducationFit => "How has your educational background prepared you for this role?"
    case Coursework => "What relevant coursework or projects have you completed that align with this position?"
    case FiveYears => "Where do you see yourself in 5 years?"
    case RoleInterest => "What interests you most about this role?"
    case StayingCurrent => "How do you stay updated with industry trends and new technologies?"
  }

  function DescribeProjectQuestion(skill: string): Question
  {
    DescribeProject(skill)
  }

  function ExperienceLevelQuestion(skill: string): Question
  {
    ExperienceLevel(skill)
  }

  const ExperienceQuestions: seq<Question> := [HardestProject, NewTechnology, TeamConflict]

  const EducationQuestions: seq<Question> := [EducationFit, Coursework]

  const GeneralQuestions: seq<Question> := [FiveYears, RoleInterest, StayingCurrent]

  /** The question list for what was found: the skill pairs, then the optional blocks, then the general three. */
  function DocumentQuestions(skills: seq<string>, hasExperience: bool, hasEducation: bool): seq<Question>
  {
    Pairs(skills, DescribeProjectQuestion, ExperienceLevelQuestion) +
    (if hasExperience then ExperienceQuestions else []) +
    (if hasEducation then EducationQuestions else []) +
    GeneralQuestions
  }

  /** `generateQuestions`: push two per skill, then three if any experience, two if any education, then three. */
  method GenerateQuestions(skills: seq<string>, experience: seq<string>, education: seq<string>)
    returns (questions: seq<Question>)
    ensures questions == DocumentQuestions(skills, experience != [], education != [])
  {
    questions := PushPairs([], skills, DescribeProjectQuestion, ExperienceLevelQuestion);
    if |experience| > 0 {
      questions := questions + ExperienceQuestions;
    }
    if |education| > 0 {
      questions := questions + EducationQuestions;
    }
    questions := questions + GeneralQuestions;
  }

  /**
   * The shape of the list: `2·|skills| + 3·[experience] + 2·[education] + 3` questions, skill
   * `i` asking questions `2i` and `2i+1`, and the three general questions always last.
   */
  lemma QuestionShape(skills: seq<string>, hasExperience: bool, hasEducation: bool)
    ensures var q := DocumentQuestions(skills, hasExperience, hasEducation);
      |q| == 2 * |skills| + (if hasExperience then 3 else 0) + (if hasEducation then 2 else 0) + 3 &&
      q[|q| - 3..] == GeneralQuestions &&
      (forall i :: 0 <= i < |skills| ==>
         q[2 * i] == DescribeProjectQuestion(skills[i]) && q[2 * i + 1] == ExperienceLevelQuestion(skills[i]))
  {
    var head := Pairs(skills, DescribeProjectQuestion, ExperienceLevelQuestion) +
                (if hasExperience then ExperienceQuestions else []) +
                (if hasEducation then EducationQuestions else []);
    var q := head + GeneralQuestions;
    assert |ExperienceQuestions| == 3 && |EducationQuestions| == 2 && |GeneralQuestions| == 3;
    assert q[|q| - 3..] == GeneralQuestions;
    forall i | 0 <= i < |skills|
      ensures q[2 * i] == DescribeProjectQuestion(skills[i]) && q[2 * i + 1] == ExperienceLevelQuestion(skills[i])
    {
      assert q[2 * i] == head[2 * i] == Pairs(skills, DescribeProjectQuestion, ExperienceLevelQuestion)[2 * i];
      assert q[2 * i + 1] == head[2 * i + 1] == Pairs(skills, DescribeProjectQuestion, ExperienceLevelQuestion)[2 * i + 1];
    }
  }

  // ------------------------------------------------------------ the handler

  /** What `formData.get('file')` yields: nothing, a plain text field, or an uploaded file. */
  datatype FormEntry =
    | NoEntry
    | TextEntry(value: string)
    | FileEntry(fileType: string, decoded: string)

  /** The request body: reading it as form data throws, or yields the `file` entry. */
  datatype RequestBody = FormDataThrows(message: string) | Form(file: FormEntry)

  /** The replies; the questions of a 200 are sent as their `Text`s. */
  datatype Reply = Preflight | Questions(questions: seq<Question>) | Failure(error: string)

  function Status(r: Reply): nat
  {
    if r.Failure? then 400 else 200
  }

  const NoFileProvided := "No file provided"

  /** The error a text field raises when the function calls `arrayBuffer` on it. */
  const NotAFile := "file.arrayBuffer is not a function"

  /** The text of an uploaded file: the PDF parser's outcome for a PDF, the decoded bytes otherwise. */
  function FileText(fileType: string, decoded: string, pdf: Result<string, string>): Result<string, string>
  {
    if fileType == "application/pdf" then pdf else Ok(decoded)
  }

  /**
   * The function's request handler. OPTIONS is answered at once; every failure on the way
   * (form data, a missing or empty entry, a field that is not a file, the PDF parser) becomes
   * a 400 carrying the thrown message; otherwise the questions for the file's text.
   */
  method Handle(httpMethod: HttpMethod, body: RequestBody, pdf: Result<string, string>) returns (reply: Reply)
    ensures reply.Preflight? <==> httpMethod == Options
    ensures httpMethod != Options && body.Form? && (body.file.NoEntry? || body.file == TextEntry("")) ==>
              reply == Failure(NoFileProvided)
    ensures httpMethod != Options && body.FormDataThrows? ==> reply == Failure(body.message)
    ensures Status(reply) == 200 <==>
              httpMethod == Options ||
              (body.Form? && body.file.FileEntry? && FileText(body.file.fileType, body.file.decoded, pdf).Ok?)
    ensures reply.Questions? ==>
              var text := FileText(body.file.fileType, body.file.decoded, pdf).value;
              reply.questions == DocumentQuestions(ExtractSkills(text), ExtractExperience(text) != [],
                                                   ExtractEducation(text) != [])
  {
    if httpMethod == Options {
      return Preflight;
    }
    if body.FormDataThrows? {
      return Failure(body.message);
    }
    match body.file
    case NoEntry =>
      return Failure(NoFileProvided);
    case TextEntry(value) =>
      return Failure(if value == "" then NoFileProvided else NotAFile);
    case FileEntry(fileType, decoded) =>
      var text := FileText(fileType, decoded, pdf);
      if text.Err? {
        return Failure(text.error);
      }
      var questions := GenerateQuestions(ExtractSkills(text.value), ExtractExperience(text.value),
                                         ExtractEducation(text.value));
      reply := Questions(questions);
  }

  /** A successful reply is never empty: the general questions close every list. */
  lemma RepliedQuestionsEndWithGeneral(skills: seq<string>, hasExperience: bool, hasEducation: bool)
    ensures var q := DocumentQuestions(skills, hasExperience, hasEducation);
      |q| >= 3 && q[|q| - 1] == StayingCurrent
  {
    QuestionShape(skills, hasExperience, hasEducation);
    var q := DocumentQuestions(skills, hasExperience, hasEducation);
    assert q[|q| - 1] == q[|q| - 3..][2];
  }
}
