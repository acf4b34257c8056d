// The profile page's form: loading a stored profile with its fallbacks, editing one text
// field at a time, and the comma-separated skills field, which is shown joined by ", " and
// read back by splitting at commas and trimming each piece.

module ProfilePage {
  import opened JsCommon
  import opened JsText
  import opened Seqs

  // ------------------------------------------------------------ the skills field

  /** `handleSkillsChange`: one skill per comma-separated piece, each trimmed; empty pieces stay. */
  function ParseSkills(text: string): (r: seq<string>)
    ensures |r| == Occurrences(text, ',') + 1
    ensures forall k :: 0 <= k < |r| ==> ',' !in r[k] && r[k] == Trim(Split(text, ',')[k])
  {
    Map(Split(text, ','), Trim)
  }

  /** The skills field's value: `skills.join(', ')`. */
  function SkillsText(skills: seq<string>): string
  {
    Join(skills, ", ")
  }

  /** A skill that survives the round trip: no comma inside, no white space at either end. */
  predicate PlainSkill(s: string)
  {
    ',' !in s && Trim(s) == s
  }

  /** Showing a non-empty list of plain skills and reading the field back gives the same list. */
  lemma SkillsRoundTrip(skills: seq<string>)
    requires |skills| >= 1
    requires forall k :: 0 <= k < |skills| ==> PlainSkill(skills[k])
    ensures ParseSkills(SkillsText(skills)) == skills
  {
    PiecesSplit(skills);
    PiecesTrim(skills);
    ReadBack(SkillsText(skills), ShownPieces(skills), skills);
  }

  /** The pieces of the shown field: the first skill, then each later one after a space. */
  function ShownPieces(skills: seq<string>): seq<string>
    requires |skills| >= 1
  {
    [skills[0]] + Map(skills[1..], Spaced)
  }

  /** Splitting the shown field at commas gives its pieces. */
  lemma PiecesSplit(skills: seq<string>)
    requires |skills| >= 1
    requires forall k :: 0 <= k < |skills| ==> PlainSkill(skills[k])
    ensures Split(SkillsText(skills), ',') == ShownPieces(skills)
  {
    ShownAsCommaJoin(skills);
    LaterPieces(skills[1..]);
    AllCons(skills[0], Map(skills[1..], Spaced), NoComma);
    SplitJoin(ShownPieces(skills), ',');
  }

  /** Trimming the pieces gives the skills back. */
  lemma PiecesTrim(skills: seq<string>)
    requires |skills| >= 1
    requires forall k :: 0 <= k < |skills| ==> PlainSkill(skills[k])
    ensures Map(ShownPieces(skills), Trim) == skills
  {
    var later := Map(skills[1..], Spaced);
    LaterPieces(skills[1..]);
    MapOnto(later, skills[1..], Trim);
    calc {
      Map(ShownPieces(skills), Trim);
    == { MapCons(skills[0], later, Trim); }
      [Trim(skills[0])] + Map(later, Trim);
    == { HeadTail(skills); }
      skills;
    }
  }

  /** Reading back a text whose pieces trim to the skills gives the skills. */
  lemma ReadBack(text: string, pieces: seq<string>, skills: seq<string>)
    requires Split(text, ',') == pieces && Map(pieces, Trim) == skills
    ensures ParseSkills(text) == skills
  {
  }

  predicate NoComma(s: string)
  {
    ',' !in s
  }

  /** The later skills, each after a space, hold no comma and trim back to themselves. */
  lemma LaterPieces(rest: seq<string>)
    requires forall k :: 0 <= k < |rest| ==> PlainSkill(rest[k])
    ensures forall k :: 0 <= k < |rest| ==> NoComma(Map(rest, Spaced)[k]) && Trim(Map(rest, Spaced)[k]) == rest[k]
  {
    forall k | 0 <= k < |rest|
      ensures NoComma(Map(rest, Spaced)[k]) && Trim(Map(rest, Spaced)[k]) == rest[k]
    {
      TrimAfterSpace(' ', rest[k]);
    }
  }

  function Spaced(s: string): string
  {
    " " + s
  }

  /** The shown text is the comma-join of the first skill and the later ones, each after a space. */
  lemma ShownAsCommaJoin(skills: seq<string>)
    requires |skills| >= 1
    ensures SkillsText(skills) == Join([skills[0]] + Map(skills[1..], Spaced), ",")
  {
    if |skills| > 1 {
      SpacedJoin(skills[1..]);
      assert ([skills[0]] + Map(skills[1..], Spaced))[1..] == Map(skills[1..], Spaced);
    }
  }

  /** A space in front of a ", "-join is the ","-join of the parts each after a space. */
  lemma {:induction false} SpacedJoin(parts: seq<string>)
    requires |parts| >= 1
    ensures " " + Join(parts, ", ") == Join(Map(parts, Spaced), ",")
  {
    if |parts| > 1 {
      SpacedJoin(parts[1..]);
      assert Map(parts, Spaced)[1..] == Map(parts[1..], Spaced);
      assert " " + (parts[0] + ", " + Join(parts[1..], ", ")) == (" " + parts[0]) + "," + (" " + Join(parts[1..], ", "));
    }
  }

  /** An empty list does not survive: its field is empty, and reading that back gives one empty skill. */
  lemma NoSkillsReadsBackAsOne()
    ensures ParseSkills(SkillsText([])) == [""]
  {
  }

  // ------------------------------------------------------------ the form

  datatype Form = Form(name: string, email: string, bio: string, skills: seq<string>, githubProfile: string,
                       linkedinProfile: string)

  const EmptyForm := Form("", "", "", [], "", "")

  /** A stored profile row; `None` for a missing column. */
  datatype Row = Row(name: Option<string>, email: Option<string>, bio: Option<string>, skills: Option<seq<string>>,
                     githubProfile: Option<string>, linkedinProfile: Option<string>)

  /** `value || ''`: a missing or empty text column shows as empty. */
  function TextOr(v: Option<string>): (r: string)
    ensures v.Some? ==> r == v.value
    ensures v.None? ==> r == ""
  {
    if v.Some? && v.value != "" then v.value else ""
  }

  /** A text box showing a column: its value when the row has it, empty otherwise. */
  predicate Shows(column: Option<string>, shown: string) {
    (column.Some? ==> shown == column.value) && (column.None? ==> shown == "")
  }

  /** The form a loaded profile fills in: each column, or its empty fallback. An empty skill list is kept. */
  function FormOf(row: Row): (f: Form)
    ensures row.skills.Some? ==> f.skills == row.skills.value
    ensures row.skills.None? ==> f.skills == []
    ensures Shows(row.name, f.name) && Shows(row.email, f.email) && Shows(row.bio, f.bio)
    ensures Shows(row.githubProfile, f.githubProfile) && Shows(row.linkedinProfile, f.linkedinProfile)
  {
    Form(TextOr(row.name), TextOr(row.email), TextOr(row.bio), if row.skills.Some? then row.skills.value else [],
         TextOr(row.githubProfile), TextOr(row.linkedinProfile))
  }

  /** A stored form reads back as itself. */
  lemma LoadOfSaved(f: Form)
    ensures FormOf(Row(Some(f.name), Some(f.email), Some(f.bio), Some(f.skills), Some(f.githubProfile),
                       Some(f.linkedinProfile))) == f
  {
  }

  /** The inputs wired to `handleInputChange`, by their `name`; the e-mail input is not one of them. */
  datatype TextField = NameField | BioField | GithubField | LinkedinField

  /** `handleInputChange`: the named field takes the new value and no other field changes. */
  function WithField(f: Form, field: TextField, value: string): (r: Form)
    ensures field == NameField ==> r == f.(name := value)
    ensures field == BioField ==> r == f.(bio := value)
    ensures field == GithubField ==> r == f.(githubProfile := value)
    ensures field == LinkedinField ==> r == f.(linkedinProfile := value)
    ensures r.email == f.email && r.skills == f.skills
  {
    match field
    case NameField => f.(name := value)
    case BioField => f.(bio := value)
    case GithubField => f.(githubProfile := value)
    case LinkedinField => f.(linkedinProfile := value)
  }

  /** Editing a field twice keeps only the second value. */
  lemma LastEditWins(f: Form, field: TextField, first: string, second: string)
    ensures WithField(WithField(f, field, first), field, second) == WithField(f, field, second)
  {
  }

  /**
   * The columns `handleSubmit` writes: the five editable ones and the time of the write; the
   * e-mail address, which the page never changes, is not written.
   */
  datatype Update = Update(name: string, bio: string, skills: seq<string>, githubProfile: string,
                           linkedinProfile: string, updatedAt: string)

  function UpdateOf(f: Form, now: string): (u: Update)
    ensures u.updatedAt == now
    ensures FormOf(Row(Some(u.name), Some(f.email), Some(u.bio), Some(u.skills), Some(u.githubProfile),
                       Some(u.linkedinProfile))) == f
  {
    Update(f.name, f.bio, f.skills, f.githubProfile, f.linkedinProfile, now)
  }

  datatype LoadOutcome = Loaded(row: Row) | LoadFailed

  class Page {
    var form: Form
    var loading: bool
    var error: Option<string>

    constructor ()
      ensures form == EmptyForm && loading && error.None?
    {
      form := EmptyForm;
      loading := true;
      error := None;
    }

    /**
     * `loadProfile`: without a signed-in user nothing happens (the page stays loading);
     * otherwise the form is filled from the row, or an error is shown, and loading ends.
     */
    method Load(signedIn: bool, outcome: LoadOutcome)
      modifies this
      ensures !signedIn ==> form == old(form) && loading == old(loading) && error == old(error)
      ensures signedIn ==> !loading
      ensures signedIn && outcome.Loaded? ==> form == FormOf(outcome.row) && error.None?
      ensures signedIn && outcome.LoadFailed? ==> form == old(form) && error == Some("Failed to load profile")
    {
      if !signedIn {
        return;
      }
      loading := true;
      error := None;
      if outcome.Loaded? {
        form := FormOf(outcome.row);
      } else {
        error := Some("Failed to load profile");
      }
      loading := false;
    }

    method InputChange(field: TextField, value: string)
      modifies this
      ensures form == WithField(old(form), field, value)
      ensures loading == old(loading) && error == old(error)
    {
      form := WithField(form, field, value);
    }

    method SkillsChange(text: string)
      modifies this
      ensures form == old(form).(skills := ParseSkills(text))
      ensures loading == old(loading) && error == old(error)
    {
      form := form.(skills := ParseSkills(text));
    }

    /**
     * `handleSubmit`: without a user nothing is sent (`None`); otherwise the update for the
     * current form, stamped with the current time `now`, is sent, and a failed write shows an error.
     */
    method Submit(signedIn: bool, writeOk: bool, now: string) returns (sent: Option<Update>)
      modifies this
      ensures sent.None? <==> !signedIn
      ensures sent.Some? ==> sent.value == UpdateOf(old(form), now)
      ensures form == old(form) && loading == old(loading)
      ensures signedIn && writeOk ==> error.None?
      ensures signedIn && !writeOk ==> error == Some("Failed to update profile")
      ensures !signedIn ==> error == old(error)
    {
      if !signedIn {
        return None;
      }
      sent := Some(UpdateOf(form, now));
      error := if writeOk then None else Some("Failed to update profile");
    }
  }
}
