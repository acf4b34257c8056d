// The recordings a signed-in user keeps, with the figures shown above them: how many there
// are, their total length in hours, the average and best interview score, and the storage
// they take. Deleting removes each recording's file from storage, then the rows, and updates
// the list and the counts; downloading fetches one recording's file.

module RecordingsStore {
  import opened JsCommon
  import opened JsText
  import opened Seqs
  import opened ScoreStats

  /**
   * A recording row with its interview. `seconds` is the duration column as parsed (`None`
   * when the column is empty); `score` is the interview's score (`None` when there is none).
   */
  datatype Recording = Recording(id: string, videoUrl: Option<string>, seconds: Option<real>, score: Option<real>)

  // ------------------------------------------------------------ scores

  function ScoreOf(rec: Recording): Option<real>
  {
    rec.score
  }

  /** `map(r => r.interview?.score).filter(Boolean)`: the scores present and not zero, in order. */
  function Scores(recs: seq<Recording>): (r: seq<real>)
    ensures forall x :: x in r <==> exists k :: 0 <= k < |recs| && recs[k].score == Some(x) && Truthy(x)
  {
    var column := Map(recs, ScoreOf);
    assert forall x :: Some(x) in column <==> exists k :: 0 <= k < |recs| && recs[k].score == Some(x);
    Present(column)
  }

  // ------------------------------------------------------------ duration and storage

  /** `rec.duration ? parseFloat(rec.duration) : 0`. */
  function SecondsOf(rec: Recording): real
  {
    if rec.seconds.Some? then rec.seconds.value else 0.0
  }

  /** The summed durations, in seconds. */
  function TotalSeconds(recs: seq<Recording>): real
  {
    if recs == [] then 0.0 else TotalSeconds(recs[..|recs| - 1]) + SecondsOf(recs[|recs| - 1])
  }

  /** The summed storage estimate, at 100 MB per minute of each recording. */
  function Megabytes(recs: seq<Recording>): real
  {
    if recs == [] then 0.0 else Megabytes(recs[..|recs| - 1]) + SecondsOf(recs[|recs| - 1]) / 60.0 * 100.0
  }

  /** The per-recording estimate adds up to the estimate of the summed duration. */
  lemma {:induction false} MegabytesOfTotal(recs: seq<Recording>)
    ensures Megabytes(recs) == TotalSeconds(recs) / 60.0 * 100.0
  {
    if recs != [] {
      MegabytesOfTotal(recs[..|recs| - 1]);
    }
  }

  /** `Math.round(x * 10) / 10`. */
  function OneDecimal(x: real): (r: real)
    ensures x - 0.05 < r <= x + 0.05
    ensures (r * 10.0).Floor as real == r * 10.0
  {
    Round(x * 10.0) as real / 10.0
  }

  /** The total duration, in hours to one decimal. */
  function TotalHours(recs: seq<Recording>): (r: real)
    ensures TotalSeconds(recs) / 3600.0 - 0.05 < r <= TotalSeconds(recs) / 3600.0 + 0.05
  {
    OneDecimal(TotalSeconds(recs) / 3600.0)
  }

  /** The storage used, in GB (1024 MB) to one decimal. */
  function UsedStorage(recs: seq<Recording>): (r: real)
    ensures Megabytes(recs) / 1024.0 - 0.05 < r <= Megabytes(recs) / 1024.0 + 0.05
  {
    OneDecimal(Megabytes(recs) / 1024.0)
  }

  /** The storage figure follows from the total duration alone: 100 MB a minute, 1024 MB a GB. */
  lemma StorageFromDuration(recs: seq<Recording>)
    ensures UsedStorage(recs) == OneDecimal(TotalSeconds(recs) * 100.0 / 61440.0)
  {
    MegabytesOfTotal(recs);
    assert Megabytes(recs) / 1024.0 == TotalSeconds(recs) * 100.0 / 61440.0;
  }

  const StorageTotal := 6.0

  // ------------------------------------------------------------ the figures

  datatype Stats = Stats(totalRecordings: nat, totalDuration: real, averageScore: int, bestScore: real)

  const InitialStats := Stats(0, 0.0, 0, 0.0)

  /** The figures `fetchRecordings` computes for a list. */
  function StatsOf(recs: seq<Recording>): (s: Stats)
    ensures s.totalRecordings == |recs|
    ensures s.totalDuration == TotalHours(recs)
    ensures s.averageScore == AverageScore(Scores(recs)) && s.bestScore == BestScore(Scores(recs))
  {
    Stats(|recs|, TotalHours(recs), AverageScore(Scores(recs)), BestScore(Scores(recs)))
  }

  // ------------------------------------------------------------ finding and storage paths

  /** `recordings.find(r => r.id === id)`: the first recording with that id. */
  function Find(recs: seq<Recording>, id: string): (r: Option<Recording>)
    ensures r.None? <==> forall k :: 0 <= k < |recs| ==> recs[k].id != id
    ensures r.Some? ==> exists k :: 0 <= k < |recs| && recs[k] == r.value && r.value.id == id &&
                                    forall j :: 0 <= j < k ==> recs[j].id != id
  {
    if recs == [] then None
    else if recs[0].id == id then Some(recs[0])
    else
      var r := Find(recs[1..], id);
      assert forall k :: 1 <= k < |recs| ==> recs[k] == recs[1..][k - 1];
      r
  }

  /** `video_url.split('/').pop()`: the file name after the last `/`. */
  function StoragePath(url: string): (p: string)
    ensures '/' !in p && EndsWith(url, p)
    ensures p == url || url[|url| - |p| - 1] == '/'
  {
    LastPiece(url, '/')
  }

  /** The storage file of the recording with that id, as one element: none without a recording, a video URL or a file name. */
  function PathFor(recs: seq<Recording>, id: string): (r: seq<string>)
    ensures |r| <= 1
    ensures forall k :: 0 <= k < |r| ==> r[k] != "" && '/' !in r[k]
  {
    var found := Find(recs, id);
    if found.Some? && found.value.videoUrl.Some? && found.value.videoUrl.value != "" &&
       StoragePath(found.value.videoUrl.value) != ""
    then [StoragePath(found.value.videoUrl.value)]
    else []
  }

  /** A file is removed only for a recording with that id and a video URL, and is the URL's file name. */
  lemma PathForRequested(recs: seq<Recording>, id: string)
    requires PathFor(recs, id) != []
    ensures exists k :: 0 <= k < |recs| && recs[k].id == id && recs[k].videoUrl.Some? &&
                        PathFor(recs, id)[0] == StoragePath(recs[k].videoUrl.value)
  {
  }

  /** The storage files `deleteRecordings` removes for the ids, in the order of the ids. */
  function StoragePaths(recs: seq<Recording>, ids: seq<string>): (r: seq<string>)
    ensures |r| <= |ids|
    ensures forall k :: 0 <= k < |r| ==> r[k] != "" && '/' !in r[k]
  {
    if ids == [] then [] else StoragePaths(recs, ids[..|ids| - 1]) + PathFor(recs, ids[|ids| - 1])
  }

  /** The files removed for the first ids come first among those for all of them. */
  lemma {:induction false} StoragePathsPrefix(recs: seq<Recording>, ids: seq<string>, i: nat)
    requires i <= |ids|
    ensures StoragePaths(recs, ids[..i]) <= StoragePaths(recs, ids)
  {
    if i < |ids| {
      var before := ids[..|ids| - 1];
      StoragePathsPrefix(recs, before, i);
      assert before[..i] == ids[..i];
    } else {
      assert ids[..i] == ids;
    }
  }

  /** Every removed file is that of a requested recording with a video URL. */
  lemma {:induction false} StoragePathsRequested(recs: seq<Recording>, ids: seq<string>, p: string)
    requires p in StoragePaths(recs, ids)
    ensures exists j, k :: 0 <= j < |ids| && 0 <= k < |recs| && recs[k].id == ids[j] && recs[k].videoUrl.Some? &&
                           p == StoragePath(recs[k].videoUrl.value)
  {
    var before := ids[..|ids| - 1];
    if p in StoragePaths(recs, before) {
      StoragePathsRequested(recs, before, p);
      var j, k :| 0 <= j < |before| && 0 <= k < |recs| && recs[k].id == before[j] && recs[k].videoUrl.Some? &&
                  p == StoragePath(recs[k].videoUrl.value);
      assert ids[j] == before[j];
    } else {
      assert p == PathFor(recs, ids[|ids| - 1])[0];
      PathForRequested(recs, ids[|ids| - 1]);
    }
  }

  /** Ids of recordings that are not in the list remove no files. */
  lemma {:induction false} UnknownIdsRemoveNothing(recs: seq<Recording>, ids: seq<string>)
    requires forall j, k :: 0 <= j < |ids| && 0 <= k < |recs| ==> recs[k].id != ids[j]
    ensures StoragePaths(recs, ids) == []
  {
    if ids != [] {
      UnknownIdsRemoveNothing(recs, ids[..|ids| - 1]);
    }
  }

  /** `!ids.includes(r.id)`. */
  function NotAmong(ids: seq<string>): Recording -> bool
  {
    (r: Recording) => r.id !in ids
  }

  /** The list after deleting the ids: the other recordings, in order. */
  function Remaining(recs: seq<Recording>, ids: seq<string>): (r: seq<Recording>)
    ensures forall k :: 0 <= k < |r| ==> r[k].id !in ids && r[k] in recs
    ensures forall k :: 0 <= k < |recs| && recs[k].id !in ids ==> recs[k] in r
    ensures IsSubsequence(r, recs)
  {
    FilterIsSubsequence(recs, NotAmong(ids));
    Filter(recs, NotAmong(ids))
  }

  /** Deleting ids no recording has keeps the list and its figures. */
  lemma DeleteUnknown(recs: seq<Recording>, ids: seq<string>)
    requires forall k :: 0 <= k < |recs| ==> recs[k].id !in ids
    ensures Remaining(recs, ids) == recs
  {
    FilterAll(recs, NotAmong(ids));
  }

  /** Deleting the same ids twice is deleting them once. */
  lemma DeleteTwice(recs: seq<Recording>, ids: seq<string>)
    ensures Remaining(Remaining(recs, ids), ids) == Remaining(recs, ids)
  {
    DeleteUnknown(Remaining(recs, ids), ids);
  }

  /** The figures after a delete: count and scores of what remains; the duration figure is kept. */
  function AfterDelete(stats: Stats, remaining: seq<Recording>): (s: Stats)
    ensures s.totalDuration == stats.totalDuration
    ensures s.totalRecordings == StatsOf(remaining).totalRecordings
    ensures s.averageScore == StatsOf(remaining).averageScore && s.bestScore == StatsOf(remaining).bestScore
  {
    stats.(totalRecordings := |remaining|, averageScore := AverageScore(Scores(remaining)),
           bestScore := BestScore(Scores(remaining)))
  }

  // ------------------------------------------------------------ downloading

  /** What `downloadRecording` does: nothing without a user, a thrown error, or a download. */
  datatype Download = NotSignedIn | DownloadThrows(message: string) | Fetch(path: string, fileName: string)

  const NotFoundError := "Video URL not found"
  const InvalidUrlError := "Invalid video URL"

  /** The download for an id: its storage file, saved as `recording-<id>.mp4`. */
  function DownloadOf(signedIn: bool, recs: seq<Recording>, id: string): (r: Download)
    ensures !signedIn <==> r.NotSignedIn?
    ensures signedIn ==>
              (r == DownloadThrows(NotFoundError) <==>
                 Find(recs, id).None? || Find(recs, id).value.videoUrl.None? || Find(recs, id).value.videoUrl.value == "")
    ensures r.Fetch? ==> r.path != "" && '/' !in r.path && r.fileName == "recording-" + id + ".mp4"
  {
    if !signedIn then NotSignedIn
    else
      var found := Find(recs, id);
      if found.None? || found.value.videoUrl.None? || found.value.videoUrl.value == "" then DownloadThrows(NotFoundError)
      else
        var path := StoragePath(found.value.videoUrl.value);
        if path == "" then DownloadThrows(InvalidUrlError) else Fetch(path, "recording-" + id + ".mp4")
  }

  /** A download fetches the very file that deleting the same recording removes. */
  lemma DownloadMatchesDelete(recs: seq<Recording>, id: string)
    ensures DownloadOf(true, recs, id).Fetch? <==> StoragePaths(recs, [id]) != []
    ensures DownloadOf(true, recs, id).Fetch? ==> StoragePaths(recs, [id]) == [DownloadOf(true, recs, id).path]
  {
    assert [id][..0] == [];
  }

  /** A URL ending in a `/` has no file name: downloading it throws. */
  lemma TrailingSlashInvalid(recs: seq<Recording>, id: string, url: string)
    requires Find(recs, id).Some? && Find(recs, id).value.videoUrl == Some(url + "/")
    ensures DownloadOf(true, recs, id) == DownloadThrows(InvalidUrlError)
  {
    assert (url + "/")[|url + "/"| - 1] == '/';
  }

  // ------------------------------------------------------------ the hook

  const LoadError := "Failed to load recordings"

  class Recordings {
    var recordings: seq<Recording>
    var stats: Stats
    var storageUsed: real
    var loading: bool
    var error: Option<string>

    constructor ()
      ensures recordings == [] && stats == InitialStats && storageUsed == 0.0 && loading && error.None?
    {
      recordings := [];
      stats := InitialStats;
      storageUsed := 0.0;
      loading := true;
      error := None;
    }

    /**
     * The fetch effect: without a user nothing happens. Otherwise the rows (`None` for an
     * error) replace the list, with their figures, or the load error is set; loading ends.
     */
    method Fetch(signedIn: bool, rows: Option<seq<Recording>>)
      modifies this
      ensures !signedIn ==> recordings == old(recordings) && stats == old(stats) && storageUsed == old(storageUsed) &&
                            loading == old(loading) && error == old(error)
      ensures signedIn ==> !loading
      ensures signedIn && rows.Some? ==>
                recordings == rows.value && stats == StatsOf(rows.value) && storageUsed == UsedStorage(rows.value) &&
                error.None?
      ensures signedIn && rows.None? ==>
                recordings == old(recordings) && stats == old(stats) && storageUsed == old(storageUsed) &&
                error == Some(LoadError)
    {
      if !signedIn {
        return;
      }
      loading := true;
      error := None;
      if rows.Some? {
        recordings := rows.value;
        stats := StatsOf(rows.value);
        storageUsed := UsedStorage(rows.value);
      } else {
        error := Some(LoadError);
      }
      loading := false;
    }

    /**
     * `deleteRecordings`: without a user nothing happens. Otherwise the requested recordings'
     * files are removed from storage (`RemoveFiles`), then the rows are deleted (`deleteOk`),
     * and the list and its count and scores are updated. A thrown error changes nothing.
     */
    method DeleteRecordings(signedIn: bool, ids: seq<string>, removeOk: string -> bool, deleteOk: bool)
      returns (removed: seq<string>, thrown: bool)
      modifies this
      ensures !signedIn ==> removed == [] && !thrown
      ensures signedIn ==> removed <= StoragePaths(old(recordings), ids)
      ensures signedIn ==> (thrown <==> !AllRemovable(StoragePaths(old(recordings), ids), removeOk) || !deleteOk)
      ensures !signedIn || thrown ==> recordings == old(recordings) && stats == old(stats)
      ensures signedIn && !thrown ==>
                recordings == Remaining(old(recordings), ids) &&
                stats == AfterDelete(old(stats), Remaining(old(recordings), ids))
      ensures storageUsed == old(storageUsed) && loading == old(loading) && error == old(error)
    {
      if !signedIn {
        return [], false;
      }
      var failed;
      removed, failed := RemoveFiles(recordings, ids, removeOk);
      if failed || !deleteOk {
        return removed, true;
      }
      var remaining := Remaining(recordings, ids);
      recordings := remaining;
      stats := AfterDelete(stats, remaining);
      thrown := false;
    }
  }

  predicate AllRemovable(paths: seq<string>, removeOk: string -> bool)
  {
    forall k :: 0 <= k < |paths| ==> removeOk(paths[k])
  }

  /** Every file of the list but the last is removed, and removing the last one fails. */
  predicate FailsAtLast(paths: seq<string>, removeOk: string -> bool)
  {
    paths != [] && !removeOk(paths[|paths| - 1]) && AllRemovable(paths[..|paths| - 1], removeOk)
  }

  /** One more id adds its file, if any, to the files removed so far. */
  lemma StoragePathsStep(recs: seq<Recording>, ids: seq<string>, i: nat)
    requires i < |ids|
    ensures StoragePaths(recs, ids[..i + 1]) == StoragePaths(recs, ids[..i]) + PathFor(recs, ids[i])
  {
    assert ids[..i + 1][..i] == ids[..i];
  }

  /** Stopping at the first file that cannot be removed: what was removed so far is a prefix, and it ends with that file. */
  lemma StopAt(recs: seq<Recording>, ids: seq<string>, i: nat, removeOk: string -> bool)
    requires i < |ids| && AllRemovable(StoragePaths(recs, ids[..i]), removeOk)
    requires PathFor(recs, ids[i]) != [] && !removeOk(PathFor(recs, ids[i])[0])
    ensures var removed := StoragePaths(recs, ids[..i]) + PathFor(recs, ids[i]);
            removed <= StoragePaths(recs, ids) && !AllRemovable(StoragePaths(recs, ids), removeOk) &&
            FailsAtLast(removed, removeOk)
  {
    var before := StoragePaths(recs, ids[..i]);
    var removed := before + PathFor(recs, ids[i]);
    StoragePathsStep(recs, ids, i);
    StoragePathsPrefix(recs, ids, i + 1);
    assert removed[..|removed| - 1] == before;
    assert StoragePaths(recs, ids)[|removed| - 1] == removed[|removed| - 1];
  }

  /**
   * The storage loop of `deleteRecordings`: for each id in turn, the recording's file is
   * removed (`removeOk` says which removals succeed), stopping at the first that fails.
   */
  method RemoveFiles(recs: seq<Recording>, ids: seq<string>, removeOk: string -> bool)
    returns (removed: seq<string>, failed: bool)
    ensures removed <= StoragePaths(recs, ids)
    ensures failed <==> !AllRemovable(StoragePaths(recs, ids), removeOk)
    ensures !failed ==> removed == StoragePaths(recs, ids)
    ensures failed ==> FailsAtLast(removed, removeOk)
  {
    removed := [];
    var i := 0;
    while i < |ids|
      invariant 0 <= i <= |ids|
      invariant removed == StoragePaths(recs, ids[..i])
      invariant AllRemovable(removed, removeOk)
    {
      var next := PathFor(recs, ids[i]);
      if next != [] && !removeOk(next[0]) {
        StopAt(recs, ids, i, removeOk);
        return removed + next, true;
      }
      assert removed + next == StoragePaths(recs, ids[..i + 1]) by {
        StoragePathsStep(recs, ids, i);
      }
      removed := removed + next;
      i := i + 1;
    }
    assert ids[..i] == ids;
    failed := false;
  }
}
