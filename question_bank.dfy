// The bundled question bank: the question schema, lookup by category and difficulty, and a
// random pick among the matches.

module QuestionBank {
  import opened JsCommon
  import opened Seqs

  datatype Category = Technical | Behavioral | General

  datatype Level = Beginner | Intermediate | Advanced | Expert

  datatype RubricItem = RubricItem(criterion: string, weight: real)

  datatype BankQuestion = BankQuestion(id: string, text: string, category: Category, difficulty: Level,
                                       expectedDuration: real, rubric: seq<RubricItem>, sampleAnswer: string,
                                       tags: seq<string>)

  // ------------------------------------------------------------ the schema

  predicate IsHexDigit(c: char)
  {
    ('0' <= c <= '9') || ('a' <= c <= 'f') || ('A' <= c <= 'F')
  }

  /** The UUID shape the schema's `uuid()` checks: hex groups of 8, 4, 4, 4 and 12, joined by hyphens. */
  predicate IsUuid(s: string)
  {
    |s| == 36 && s[8] == '-' && s[13] == '-' && s[18] == '-' && s[23] == '-' &&
    forall k :: 0 <= k < 36 && k != 8 && k != 13 && k != 18 && k != 23 ==> IsHexDigit(s[k])
  }

  /** One complaint of the schema, by the field it is about. */
  datatype Issue = BadId | ShortText | DurationOutOfRange | WeightOutOfRange(index: nat)

  predicate WeightInRange(item: RubricItem)
  {
    1.0 <= item.weight <= 100.0
  }

  /** Every issue names a rubric entry whose weight is out of range. */
  predicate OnlyBadWeights(r: seq<Issue>, rubric: seq<RubricItem>)
  {
    forall k :: 0 <= k < |r| ==> r[k].WeightOutOfRange? && r[k].index < |rubric| && !WeightInRange(rubric[r[k].index])
  }

  /** Every rubric entry whose weight is out of range has its issue. */
  predicate EveryBadWeight(r: seq<Issue>, rubric: seq<RubricItem>)
  {
    forall k :: 0 <= k < |rubric| && !WeightInRange(rubric[k]) ==> WeightOutOfRange(k) in r
  }

  /** The issues follow rubric order, so none is repeated. */
  predicate InRubricOrder(r: seq<Issue>)
  {
    forall i, j :: 0 <= i < j < |r| && r[i].WeightOutOfRange? && r[j].WeightOutOfRange? ==> r[i].index < r[j].index
  }

  /** `r` reports exactly the out-of-range weights of `rubric`, in rubric order. */
  predicate Reports(r: seq<Issue>, rubric: seq<RubricItem>)
  {
    |r| <= |rubric| && OnlyBadWeights(r, rubric) && EveryBadWeight(r, rubric) && InRubricOrder(r) &&
    ((r == []) <==> forall k :: 0 <= k < |rubric| ==> WeightInRange(rubric[k]))
  }

  /** The rubric entries whose weight is outside 1..100, as issues, in rubric order. */
  function WeightIssues(rubric: seq<RubricItem>): (r: seq<Issue>)
    ensures |r| <= |rubric|
    ensures OnlyBadWeights(r, rubric) && EveryBadWeight(r, rubric) && InRubricOrder(r)
    ensures (r == []) <==> forall k :: 0 <= k < |rubric| ==> WeightInRange(rubric[k])
  {
    if rubric == [] then []
    else
      var n := |rubric| - 1;
      var rest := WeightIssues(rubric[..n]);
      ReportsStep(rest, rubric);
      if WeightInRange(rubric[n]) then rest else rest + [WeightOutOfRange(n)]
  }

  /** One more rubric entry: the report so far stands, with the entry's issue last when its weight is out of range. */
  lemma ReportsStep(rest: seq<Issue>, rubric: seq<RubricItem>)
    requires rubric != [] && Reports(rest, rubric[..|rubric| - 1])
    ensures WeightInRange(rubric[|rubric| - 1]) ==> Reports(rest, rubric)
    ensures !WeightInRange(rubric[|rubric| - 1]) ==> Reports(rest + [WeightOutOfRange(|rubric| - 1)], rubric)
  {
    var n := |rubric| - 1;
    assert forall k :: 0 <= k < n ==> rubric[..n][k] == rubric[k];
    if !WeightInRange(rubric[n]) {
      var r := rest + [WeightOutOfRange(n)];
      assert forall k :: 0 <= k < |rest| ==> r[k] == rest[k];
    }
  }

  /**
   * `questionSchema.safeParse` for a value of the right shape: every issue it reports.
   * Category and difficulty are enums here, so only the bounds can fail.
   */
  function SchemaIssues(q: BankQuestion): (r: seq<Issue>)
    ensures (r == []) <==> IsUuid(q.id) && |q.text| >= 10 && 30.0 <= q.expectedDuration <= 300.0 &&
                           forall k :: 0 <= k < |q.rubric| ==> 1.0 <= q.rubric[k].weight <= 100.0
    ensures BadId in r <==> !IsUuid(q.id)
    ensures ShortText in r <==> |q.text| < 10
    ensures DurationOutOfRange in r <==> !(30.0 <= q.expectedDuration <= 300.0)
  {
    var weights := WeightIssues(q.rubric);
    assert BadId !in weights && ShortText !in weights && DurationOutOfRange !in weights;
    (if IsUuid(q.id) then [] else [BadId]) +
    (if |q.text| >= 10 then [] else [ShortText]) +
    (if 30.0 <= q.expectedDuration <= 300.0 then [] else [DurationOutOfRange]) +
    weights
  }

  /** The bank's sample identifiers use letters beyond `f`, so they are not UUIDs the schema would accept. */
  lemma SampleIdIsNotUuid()
    ensures !IsUuid("1a2b3c4d-5e6f-7g8h-9i0j-1k2l3m4n5o6p")
  {
    var s := "1a2b3c4d-5e6f-7g8h-9i0j-1k2l3m4n5o6p";
    assert s[15] == 'g' && !IsHexDigit(s[15]);
  }

  // ------------------------------------------------------------ lookup

  function Matches(category: Category, difficulty: Level): BankQuestion -> bool
  {
    (q: BankQuestion) => q.category == category && q.difficulty == difficulty
  }

  /** `getQuestionsByType`: the questions of the bank with both the category and the difficulty, in bank order. */
  function QuestionsByType(bank: seq<BankQuestion>, category: Category, difficulty: Level): (r: seq<BankQuestion>)
    ensures forall k :: 0 <= k < |r| ==> r[k] in bank && r[k].category == category && r[k].difficulty == difficulty
    ensures forall k :: 0 <= k < |bank| && bank[k].category == category && bank[k].difficulty == difficulty ==>
              bank[k] in r
    ensures IsSubsequence(r, bank)
  {
    var r := Filter(bank, Matches(category, difficulty));
    FilterIsSubsequence(bank, Matches(category, difficulty));
    assert forall k :: 0 <= k < |r| ==> Matches(category, difficulty)(r[k]);
    r
  }

  /**
   * `getRandomQuestion` with `Math.random()` as `rnd` in [0, 1): the match at index
   * `floor(rnd · n)`, or `undefined` (`None`) when nothing matches, since indexing an empty
   * list yields `undefined`.
   */
  function RandomQuestion(bank: seq<BankQuestion>, category: Category, difficulty: Level, rnd: real)
    : (r: Option<BankQuestion>)
    requires 0.0 <= rnd < 1.0
    ensures r.None? <==> QuestionsByType(bank, category, difficulty) == []
    ensures r.Some? ==> r.value in QuestionsByType(bank, category, difficulty) &&
                        r.value.category == category && r.value.difficulty == difficulty
  {
    var matches := QuestionsByType(bank, category, difficulty);
    var n := |matches|;
    if n == 0 then None
    else
      var i := (rnd * n as real).Floor;
      ProductBelow(rnd, n);
      Some(matches[i])
  }

  /** `floor(rnd · n)` is an index of a list of `n` elements. */
  lemma ProductBelow(rnd: real, n: nat)
    requires 0.0 <= rnd < 1.0 && n > 0
    ensures 0 <= (rnd * n as real).Floor < n
  {
    assert rnd * n as real < n as real;
  }

  /** Every match can be drawn: a draw with `rnd · n == i` picks match `i`. */
  lemma EveryMatchCanBeDrawn(bank: seq<BankQuestion>, category: Category, difficulty: Level, i: nat, rnd: real)
    requires 0.0 <= rnd < 1.0 && rnd * |QuestionsByType(bank, category, difficulty)| as real == i as real
    requires i < |QuestionsByType(bank, category, difficulty)|
    ensures RandomQuestion(bank, category, difficulty, rnd) == Some(QuestionsByType(bank, category, difficulty)[i])
  {
  }
}
