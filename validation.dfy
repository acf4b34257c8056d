// The shared form schemas: what each one accepts, and the issues it reports otherwise, one
// per failed check, in the order of the schema's fields. zod's own e-mail pattern is a
// parameter (`isEmail`); string lengths count characters.

module Validation {
  import opened JsCommon

  datatype Field = Email | Password | ConfirmPassword | FullName | Bio | Theme | Language | Resolution |
                   Name | ModeType | Difficulty

  datatype Check = BadEmail | TooShort(min: nat) | TooLong(max: nat) | NotInEnum | Mismatch

  datatype Issue = Issue(field: Field, check: Check)

  /** The value is one of an enum's options. */
  predicate OneOf(value: string, options: seq<string>)
  {
    value in options
  }

  /** The issue for a field when a check fails, none otherwise. */
  function When(failed: bool, field: Field, check: Check): (r: seq<Issue>)
    ensures failed <==> r == [Issue(field, check)]
    ensures !failed <==> r == []
  {
    if failed then [Issue(field, check)] else []
  }

  // ------------------------------------------------------------ login and sign-up

  datatype LoginInput = LoginInput(email: string, password: string)

  const MinPassword: nat := 8

  /** `loginSchema`: an e-mail address and a password of at least eight characters. */
  function LoginIssues(input: LoginInput, isEmail: string -> bool): (r: seq<Issue>)
    ensures r == [] <==> isEmail(input.email) && |input.password| >= MinPassword
    ensures Issue(Email, BadEmail) in r <==> !isEmail(input.email)
    ensures Issue(Password, TooShort(MinPassword)) in r <==> |input.password| < MinPassword
    ensures |r| <= 2
  {
    When(!isEmail(input.email), Email, BadEmail) +
    When(|input.password| < MinPassword, Password, TooShort(MinPassword))
  }

  datatype SignupInput = SignupInput(email: string, password: string, confirmPassword: string)

  /**
   * `signupSchema`: the login fields, then a refinement reported on `confirmPassword` when
   * the two passwords differ. The fields are all strings, so the refinement always runs.
   */
  function SignupIssues(input: SignupInput, isEmail: string -> bool): (r: seq<Issue>)
    ensures r == [] <==> isEmail(input.email) && |input.password| >= MinPassword &&
                         input.password == input.confirmPassword
    ensures Issue(ConfirmPassword, Mismatch) in r <==> input.password != input.confirmPassword
    ensures LoginIssues(LoginInput(input.email, input.password), isEmail) <= r
  {
    LoginIssues(LoginInput(input.email, input.password), isEmail) +
    When(input.password != input.confirmPassword, ConfirmPassword, Mismatch)
  }

  // ------------------------------------------------------------ profile

  datatype ProfileInput = ProfileInput(fullName: string, bio: Option<string>)

  /** `profileSchema`: a name of at least two characters, and a bio of at most 500 when there is one. */
  function ProfileIssues(input: ProfileInput): (r: seq<Issue>)
    ensures r == [] <==> |input.fullName| >= 2 && (input.bio.Some? ==> |input.bio.value| <= 500)
    ensures Issue(FullName, TooShort(2)) in r <==> |input.fullName| < 2
    ensures Issue(Bio, TooLong(500)) in r <==> input.bio.Some? && |input.bio.value| > 500
  {
    When(|input.fullName| < 2, FullName, TooShort(2)) +
    When(input.bio.Some? && |input.bio.value| > 500, Bio, TooLong(500))
  }

  /** The bio limit is inclusive: a bio of exactly 500 characters passes, though the message says "less than 500". */
  lemma BioLimitInclusive(name: string, bio: string)
    requires |name| >= 2 && |bio| == 500
    ensures ProfileIssues(ProfileInput(name, Some(bio))) == []
  {
  }

  // ------------------------------------------------------------ settings

  const Themes: seq<string> := ["light", "dark"]
  const Languages: seq<string> := ["en", "es", "fr", "de", "ja", "ko", "zh"]
  const Resolutions: seq<string> := ["720p", "1080p"]

  /** The string fields of `settingsSchema`; its other fields are booleans, which always pass. */
  datatype SettingsInput = SettingsInput(theme: string, language: string, resolution: string)

  /** `settingsSchema`: the theme, the language and the video resolution must each be one of their options. */
  function SettingsIssues(input: SettingsInput): (r: seq<Issue>)
    ensures r == [] <==> OneOf(input.theme, Themes) && OneOf(input.language, Languages) &&
                         OneOf(input.resolution, Resolutions)
    ensures Issue(Theme, NotInEnum) in r <==> !OneOf(input.theme, Themes)
    ensures Issue(Language, NotInEnum) in r <==> !OneOf(input.language, Languages)
    ensures Issue(Resolution, NotInEnum) in r <==> !OneOf(input.resolution, Resolutions)
  {
    When(!OneOf(input.theme, Themes), Theme, NotInEnum) +
    When(!OneOf(input.language, Languages), Language, NotInEnum) +
    When(!OneOf(input.resolution, Resolutions), Resolution, NotInEnum)
  }

  // ------------------------------------------------------------ custom interview modes

  const ModeTypes: seq<string> := ["technical", "behavioral", "general"]
  const ModeDifficulties: seq<string> := ["beginner", "intermediate", "advanced", "expert"]

  /** The string fields of `customModeSchema`; its nine settings are booleans, which always pass. */
  datatype ModeInput = ModeInput(name: string, modeType: string, difficulty: string)

  /** `customModeSchema`: a name of at least three characters, a known type and a known difficulty. */
  function ModeIssues(input: ModeInput): (r: seq<Issue>)
    ensures r == [] <==> |input.name| >= 3 && OneOf(input.modeType, ModeTypes) &&
                         OneOf(input.difficulty, ModeDifficulties)
    ensures Issue(Name, TooShort(3)) in r <==> |input.name| < 3
    ensures Issue(ModeType, NotInEnum) in r <==> !OneOf(input.modeType, ModeTypes)
    ensures Issue(Difficulty, NotInEnum) in r <==> !OneOf(input.difficulty, ModeDifficulties)
  {
    When(|input.name| < 3, Name, TooShort(3)) +
    When(!OneOf(input.modeType, ModeTypes), ModeType, NotInEnum) +
    When(!OneOf(input.difficulty, ModeDifficulties), Difficulty, NotInEnum)
  }
}
