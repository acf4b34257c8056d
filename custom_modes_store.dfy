// The custom-mode list a signed-in user keeps: loading it newest first, and the local effect
// of creating, updating and deleting a mode once the backend has answered. Without a user
// every operation returns at once; a backend error leaves the list as it was and is rethrown.

module CustomModeStore {
  import opened JsCommon
  import opened Seqs

  /** The nine switches of a mode. */
  datatype SettingKey = EyeTracking | MultilingualSupport | TimedResponses | RealTimeFeedback | AiAssistant |
                        AdaptiveDifficulty | VideoRecording | AudioRecording | Transcription

  type Settings = map<SettingKey, bool>

  /** The settings a mode created without any gets: every switch on except multilingual support. */
  const DefaultSettings: Settings := map[EyeTracking := true, MultilingualSupport := false, TimedResponses := true,
                                         RealTimeFeedback := true, AiAssistant := true, AdaptiveDifficulty := true,
                                         VideoRecording := true, AudioRecording := true, Transcription := true]

  /** A stored mode, one row of `custom_modes`. */
  datatype Mode = Mode(id: string, userId: string, name: string, modeType: string, difficulty: string,
                       settings: Settings, createdAt: string, updatedAt: string)

  /** `Partial<CustomMode>` as the page hands it over: any field may be missing. */
  datatype Draft = Draft(name: Option<string>, modeType: Option<string>, difficulty: Option<string>,
                         settings: Option<Settings>)

  /** The row `createMode` inserts; both time stamps are the current time. */
  datatype NewRow = NewRow(name: Option<string>, modeType: Option<string>, difficulty: Option<string>,
                           userId: string, settings: Settings, createdAt: string, updatedAt: string)

  function NewModeRow(draft: Draft, userId: string, now: string): (r: NewRow)
    ensures r.name == draft.name && r.modeType == draft.modeType && r.difficulty == draft.difficulty
    ensures r.userId == userId && r.createdAt == now && r.updatedAt == now
    ensures draft.settings.Some? ==> r.settings == draft.settings.value
    ensures draft.settings.None? ==> r.settings == DefaultSettings
  {
    NewRow(draft.name, draft.modeType, draft.difficulty, userId,
           if draft.settings.Some? then draft.settings.value else DefaultSettings, now, now)
  }

  /** A created mode without settings has all nine switches, only multilingual support off. */
  lemma DefaultsCoverEverySwitch(draft: Draft, userId: string, now: string, key: SettingKey)
    requires draft.settings.None?
    ensures key in NewModeRow(draft, userId, now).settings
    ensures NewModeRow(draft, userId, now).settings[key] == (key != MultilingualSupport)
  {
  }

  /** The columns of a row the backend sends back; spreading it over a mode overwrites those it has. */
  datatype Patch = Patch(id: Option<string>, userId: Option<string>, name: Option<string>, modeType: Option<string>,
                         difficulty: Option<string>, settings: Option<Settings>, createdAt: Option<string>,
                         updatedAt: Option<string>)

  function Or<T>(v: Option<T>, fallback: T): (r: T)
    ensures v.Some? ==> r == v.value
    ensures v.None? ==> r == fallback
  {
    if v.Some? then v.value else fallback
  }

  /** A field after a spread: the row's column when it has one, the mode's own value otherwise. */
  predicate Spread<T(==)>(column: Option<T>, before: T, after: T) {
    (column.Some? ==> after == column.value) && (column.None? ==> after == before)
  }

  /** `{ ...m, ...data }`. */
  function Merge(m: Mode, data: Patch): (r: Mode)
    ensures Spread(data.id, m.id, r.id) && Spread(data.userId, m.userId, r.userId)
    ensures Spread(data.name, m.name, r.name) && Spread(data.modeType, m.modeType, r.modeType)
    ensures Spread(data.difficulty, m.difficulty, r.difficulty) && Spread(data.settings, m.settings, r.settings)
    ensures Spread(data.createdAt, m.createdAt, r.createdAt) && Spread(data.updatedAt, m.updatedAt, r.updatedAt)
  {
    Mode(Or(data.id, m.id), Or(data.userId, m.userId), Or(data.name, m.name), Or(data.modeType, m.modeType),
         Or(data.difficulty, m.difficulty), Or(data.settings, m.settings), Or(data.createdAt, m.createdAt),
         Or(data.updatedAt, m.updatedAt))
  }

  /** Spreading the same row twice is spreading it once. */
  lemma MergeIdempotent(m: Mode, data: Patch)
    ensures Merge(Merge(m, data), data) == Merge(m, data)
  {
  }

  /** A row with no columns leaves the mode as it is. */
  lemma MergeNothing(m: Mode)
    ensures Merge(m, Patch(None, None, None, None, None, None, None, None)) == m
  {
  }

  /** The list after `updateMode(id, ...)` succeeds: the row is spread over every mode with that id. */
  function Updated(modes: seq<Mode>, id: string, data: Patch): (r: seq<Mode>)
    ensures |r| == |modes|
    ensures forall k :: 0 <= k < |modes| && modes[k].id != id ==> r[k] == modes[k]
    ensures forall k :: 0 <= k < |modes| && modes[k].id == id ==> r[k] == Merge(modes[k], data)
  {
    Map(modes, (m: Mode) => if m.id == id then Merge(m, data) else m)
  }

  /** Applying the same update twice changes nothing more when the row keeps the id. */
  lemma UpdateIdempotent(modes: seq<Mode>, id: string, data: Patch)
    requires data.id.None? || data.id == Some(id)
    ensures Updated(Updated(modes, id, data), id, data) == Updated(modes, id, data)
  {
    var once := Updated(modes, id, data);
    forall k | 0 <= k < |modes|
      ensures Updated(once, id, data)[k] == once[k]
    {
      if modes[k].id == id {
        MergeIdempotent(modes[k], data);
      }
    }
  }

  /** An update without an id column keeps every mode's id in place. */
  lemma UpdateKeepsIds(modes: seq<Mode>, id: string, data: Patch)
    requires data.id.None?
    ensures forall k :: 0 <= k < |modes| ==> Updated(modes, id, data)[k].id == modes[k].id
  {
  }

  function HasOtherId(id: string): Mode -> bool
  {
    (m: Mode) => m.id != id
  }

  /** The list after `deleteMode(id)` succeeds: every mode with that id is gone, the rest stay in order. */
  function Deleted(modes: seq<Mode>, id: string): (r: seq<Mode>)
    ensures forall k :: 0 <= k < |r| ==> r[k].id != id && r[k] in modes
    ensures forall k :: 0 <= k < |modes| && modes[k].id != id ==> modes[k] in r
    ensures IsSubsequence(r, modes)
  {
    FilterIsSubsequence(modes, HasOtherId(id));
    Filter(modes, HasOtherId(id))
  }

  /** Deleting an id no mode has leaves the list unchanged. */
  lemma DeleteAbsent(modes: seq<Mode>, id: string)
    requires forall k :: 0 <= k < |modes| ==> modes[k].id != id
    ensures Deleted(modes, id) == modes
  {
    FilterAll(modes, HasOtherId(id));
  }

  /** Deleting twice is deleting once. */
  lemma DeleteIdempotent(modes: seq<Mode>, id: string)
    ensures Deleted(Deleted(modes, id), id) == Deleted(modes, id)
  {
    DeleteAbsent(Deleted(modes, id), id);
  }

  /** What the backend answers to a read: the rows (possibly `null`), or an error. */
  datatype FetchOutcome = Fetched(data: Option<seq<Mode>>) | FetchFailed

  const LoadError := "Failed to load custom modes"

  class CustomModes {
    var modes: seq<Mode>
    var loading: bool
    var error: Option<string>

    /** The hook's first state: no modes, loading, no error. */
    constructor ()
      ensures modes == [] && loading && error.None?
    {
      modes := [];
      loading := true;
      error := None;
    }

    /**
     * The fetch effect: without a user nothing happens (and loading stays on); otherwise the
     * rows replace the list (`data || []`), or the load error is set, and loading ends.
     */
    method Fetch(signedIn: bool, outcome: FetchOutcome)
      modifies this
      ensures !signedIn ==> modes == old(modes) && loading == old(loading) && error == old(error)
      ensures signedIn ==> !loading
      ensures signedIn && outcome.Fetched? ==> modes == Or(outcome.data, []) && error.None?
      ensures signedIn && outcome.FetchFailed? ==> modes == old(modes) && error == Some(LoadError)
    {
      if !signedIn {
        return;
      }
      loading := true;
      error := None;
      if outcome.Fetched? {
        modes := Or(outcome.data, []);
      } else {
        error := Some(LoadError);
      }
      loading := false;
    }

    /**
     * `createMode`: without a user nothing is sent; otherwise the new row is sent, and the
     * record the backend returns (`created`, `None` for an error) goes to the front of the list.
     */
    method Create(user: Option<string>, draft: Draft, now: string, created: Option<Mode>)
      returns (sent: Option<NewRow>, thrown: bool)
      modifies this
      ensures user.None? ==> sent.None? && !thrown
      ensures user.Some? ==> sent == Some(NewModeRow(draft, user.value, now)) && thrown == created.None?
      ensures user.Some? && created.Some? ==> modes == [created.value] + old(modes)
      ensures user.None? || created.None? ==> modes == old(modes)
      ensures loading == old(loading) && error == old(error)
    {
      if user.None? {
        return None, false;
      }
      sent := Some(NewModeRow(draft, user.value, now));
      if created.None? {
        return sent, true;
      }
      modes := [created.value] + modes;
      thrown := false;
    }

    /** `updateMode`: the returned row (`None` for an error) is spread over the modes with that id. */
    method Update(signedIn: bool, id: string, returned: Option<Patch>) returns (thrown: bool)
      modifies this
      ensures thrown <==> signedIn && returned.None?
      ensures signedIn && returned.Some? ==> modes == Updated(old(modes), id, returned.value)
      ensures !signedIn || returned.None? ==> modes == old(modes)
      ensures loading == old(loading) && error == old(error)
    {
      if !signedIn {
        return false;
      }
      if returned.None? {
        return true;
      }
      modes := Updated(modes, id, returned.value);
      thrown := false;
    }

    /** `deleteMode`: once the backend has deleted the row, every mode with that id leaves the list. */
    method Delete(signedIn: bool, id: string, deleteOk: bool) returns (thrown: bool)
      modifies this
      ensures thrown <==> signedIn && !deleteOk
      ensures signedIn && deleteOk ==> modes == Deleted(old(modes), id)
      ensures !signedIn || !deleteOk ==> modes == old(modes)
      ensures loading == old(loading) && error == old(error)
    {
      if !signedIn {
        return false;
      }
      if !deleteOk {
        return true;
      }
      modes := Deleted(modes, id);
      thrown := false;
    }
  }
}
