// The custom-modes page: its own schema for the mode form, the per-field error map built from
// the schema's issues, and the form state around creating, editing and cancelling.

module CustomModesPage {
  import opened JsCommon
  import CustomModeStore
  import Validation

  type SettingKey = CustomModeStore.SettingKey

  /** The form's fields, in the schema's order. */
  datatype Field = Name | ModeType | Difficulty | Settings

  /** The messages of the schema's issues. */
  datatype Message = NameRequired | NameTooLong | InvalidOption

  /** A schema issue; `path` is `None` for an issue on the whole object. */
  datatype Issue = Issue(path: Option<Field>, message: Message)

  const PageTypes: seq<string> := ["general", "technical", "behavioral", "case-study"]
  const PageDifficulties: seq<string> := ["beginner", "intermediate", "advanced", "expert"]

  /** The mode form. Its settings are a record of booleans, which the schema always accepts. */
  datatype Form = Form(name: string, modeType: string, difficulty: string, settings: CustomModeStore.Settings)

  /** The form a new mode starts from. */
  const DefaultForm := Form("", "general", "intermediate", CustomModeStore.DefaultSettings)

  /** The issue for a field when a check fails, none otherwise. */
  function When(failed: bool, field: Field, message: Message): (r: seq<Issue>)
    ensures failed ==> r == [Issue(Some(field), message)]
    ensures !failed ==> r == []
  {
    if failed then [Issue(Some(field), message)] else []
  }

  /** The page's `customModeSchema`: a name of 1 to 100 characters, and a known type and difficulty. */
  function FormIssues(f: Form): (r: seq<Issue>)
    ensures r == [] <==> 1 <= |f.name| <= 100 && f.modeType in PageTypes && f.difficulty in PageDifficulties
    ensures Issue(Some(Name), NameRequired) in r <==> f.name == ""
    ensures Issue(Some(Name), NameTooLong) in r <==> |f.name| > 100
    ensures Issue(Some(ModeType), InvalidOption) in r <==> f.modeType !in PageTypes
    ensures Issue(Some(Difficulty), InvalidOption) in r <==> f.difficulty !in PageDifficulties
    ensures forall k :: 0 <= k < |r| ==> r[k].path.Some? && r[k].path.value != Settings
  {
    When(f.name == "", Name, NameRequired) + When(|f.name| > 100, Name, NameTooLong) +
    When(f.modeType !in PageTypes, ModeType, InvalidOption) +
    When(f.difficulty !in PageDifficulties, Difficulty, InvalidOption)
  }

  /**
   * The page's schema and the shared one disagree on the same mode: a two-letter case study
   * passes the page and fails the shared schema on both its name and its type.
   */
  lemma SchemasDisagree()
    ensures FormIssues(Form("AB", "case-study", "expert", map[])) == []
    ensures Validation.ModeIssues(Validation.ModeInput("AB", "case-study", "expert")) ==
            [Validation.Issue(Validation.Name, Validation.TooShort(3)), Validation.Issue(Validation.ModeType, Validation.NotInEnum)]
  {
    assert "case-study" == PageTypes[3];
    assert "expert" == PageDifficulties[3];
    assert "case-study" !in Validation.ModeTypes;
    assert "expert" == Validation.ModeDifficulties[3];
  }

  /** The error map `validateForm` builds: for every field, the message of its last issue. */
  function LastPerField(issues: seq<Issue>): (errors: map<Field, Message>)
    ensures forall field :: field in errors <==> exists k :: 0 <= k < |issues| && issues[k].path == Some(field)
  {
    if issues == [] then map[]
    else
      var last := issues[|issues| - 1];
      var before := LastPerField(issues[..|issues| - 1]);
      assert forall k :: 0 <= k < |issues| - 1 ==> issues[..|issues| - 1][k] == issues[k];
      if last.path.Some? then before[last.path.value := last.message] else before
  }

  /** The message kept for a field is that of the last issue for it: later issues overwrite earlier ones. */
  lemma {:induction false} LastIssueWins(issues: seq<Issue>, k: nat)
    requires k < |issues| && issues[k].path.Some?
    requires forall j :: k < j < |issues| ==> issues[j].path != issues[k].path
    ensures issues[k].path.value in LastPerField(issues)
    ensures LastPerField(issues)[issues[k].path.value] == issues[k].message
  {
    if k < |issues| - 1 {
      var before := issues[..|issues| - 1];
      assert before[k] == issues[k];
      LastIssueWins(before, k);
    }
  }

  /** `err.errors.forEach(...)`: the loop that fills the error map one issue at a time. */
  method CollectErrors(issues: seq<Issue>) returns (errors: map<Field, Message>)
    ensures errors == LastPerField(issues)
  {
    errors := map[];
    var i := 0;
    while i < |issues|
      invariant 0 <= i <= |issues|
      invariant errors == LastPerField(issues[..i])
    {
      assert issues[..i + 1][..i] == issues[..i];
      if issues[i].path.Some? {
        errors := errors[issues[i].path.value := issues[i].message];
      }
      i := i + 1;
    }
    assert issues[..i] == issues;
  }

  /** A settings toggle: the switch flips and every other switch keeps its value. */
  function Toggled(settings: CustomModeStore.Settings, key: SettingKey): (r: CustomModeStore.Settings)
    requires key in settings
    ensures r.Keys == settings.Keys
    ensures r[key] == !settings[key]
    ensures forall other :: other in settings && other != key ==> r[other] == settings[other]
  {
    settings[key := !settings[key]]
  }

  /** Toggling a switch twice restores the settings. */
  lemma ToggleTwice(settings: CustomModeStore.Settings, key: SettingKey)
    requires key in settings
    ensures Toggled(Toggled(settings, key), key) == settings
  {
  }

  /** What a valid submission asks the store for. */
  datatype Save = UpdateSave(id: string, form: Form) | CreateSave(form: Form)

  /** The store's draft for a form: every field present. */
  function DraftOf(f: Form): (d: CustomModeStore.Draft)
    ensures d.name == Some(f.name) && d.modeType == Some(f.modeType) && d.difficulty == Some(f.difficulty)
    ensures d.settings == Some(f.settings)
  {
    CustomModeStore.Draft(Some(f.name), Some(f.modeType), Some(f.difficulty), Some(f.settings))
  }

  /** A created mode keeps the form's settings, never the store's defaults. */
  lemma CreatedKeepsFormSettings(f: Form, userId: string, now: string)
    ensures CustomModeStore.NewModeRow(DraftOf(f), userId, now).settings == f.settings
  {
  }

  class Page {
    var showNewMode: bool
    var editingMode: Option<string>
    var formData: Form
    var formErrors: map<Field, Message>

    constructor ()
      ensures !showNewMode && editingMode.None? && formData == DefaultForm && formErrors == map[]
    {
      showNewMode := false;
      editingMode := None;
      formData := DefaultForm;
      formErrors := map[];
    }

    /** `validateForm`: success clears the errors; a failure records the last message per field. */
    method ValidateForm() returns (ok: bool)
      modifies this
      ensures ok <==> FormIssues(formData) == []
      ensures formErrors == LastPerField(FormIssues(formData))
      ensures showNewMode == old(showNewMode) && editingMode == old(editingMode) && formData == old(formData)
    {
      var issues := FormIssues(formData);
      if issues == [] {
        formErrors := map[];
        return true;
      }
      formErrors := CollectErrors(issues);
      ok := false;
    }

    /** `resetForm`: the default form and no errors. */
    method ResetForm()
      modifies this
      ensures formData == DefaultForm && formErrors == map[]
      ensures showNewMode == old(showNewMode) && editingMode == old(editingMode)
    {
      formData := DefaultForm;
      formErrors := map[];
    }

    /** The "Create New Mode" button: open the form, reset. */
    method OpenNew()
      modifies this
      ensures showNewMode && formData == DefaultForm && formErrors == map[] && editingMode == old(editingMode)
    {
      showNewMode := true;
      ResetForm();
    }

    /** `handleCancel`: close the form, stop editing, reset. */
    method Cancel()
      modifies this
      ensures !showNewMode && editingMode.None? && formData == DefaultForm && formErrors == map[]
    {
      showNewMode := false;
      editingMode := None;
      ResetForm();
    }

    /** `handleEdit`: edit the given mode, its fields copied into the form. */
    method Edit(mode: CustomModeStore.Mode)
      modifies this
      ensures editingMode == Some(mode.id) && showNewMode && formErrors == map[]
      ensures formData == Form(mode.name, mode.modeType, mode.difficulty, mode.settings)
    {
      editingMode := Some(mode.id);
      formData := Form(mode.name, mode.modeType, mode.difficulty, mode.settings);
      showNewMode := true;
      formErrors := map[];
    }

    /** A settings switch of the form; only switches the form has are shown. */
    method ToggleSetting(key: SettingKey)
      requires key in formData.settings
      modifies this
      ensures formData == old(formData).(settings := Toggled(old(formData).settings, key))
      ensures showNewMode == old(showNewMode) && editingMode == old(editingMode) && formErrors == old(formErrors)
    {
      formData := formData.(settings := Toggled(formData.settings, key));
    }

    /**
     * `handleSubmit`: an invalid form saves nothing (`None`). A valid one is saved, as an update
     * while editing and as a new mode otherwise; unless the save throws, the form then closes and
     * resets. A thrown save leaves the form open as it was.
     */
    method Submit(saveThrows: bool) returns (save: Option<Save>)
      modifies this
      ensures save.None? <==> FormIssues(old(formData)) != []
      ensures save.None? ==> formErrors == LastPerField(FormIssues(old(formData))) &&
                             showNewMode == old(showNewMode) && editingMode == old(editingMode) &&
                             formData == old(formData)
      ensures save.Some? ==>
                save.value == (if old(editingMode).Some? then UpdateSave(old(editingMode).value, old(formData))
                               else CreateSave(old(formData)))
      ensures save.Some? && !saveThrows ==>
                !showNewMode && editingMode.None? && formData == DefaultForm && formErrors == map[]
      ensures save.Some? && saveThrows ==>
                showNewMode == old(showNewMode) && editingMode == old(editingMode) && formData == old(formData) &&
                formErrors == map[]
    {
      var ok := ValidateForm();
      if !ok {
        return None;
      }
      if editingMode.Some? {
        save := Some(UpdateSave(editingMode.value, formData));
        if saveThrows {
          return;
        }
        editingMode := None;
      } else {
        save := Some(CreateSave(formData));
        if saveThrows {
          return;
        }
      }
      showNewMode := false;
      ResetForm();
    }
  }
}
