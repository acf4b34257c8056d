// The Express server: the upload endpoints, the GitHub link check and the recordings
// directory (list, fetch, delete). The resume-and-GitHub route is the one ResumeRoutes
// models; this server repeats its skill extraction and question generation unchanged.

module ServerApp {
  import opened JsCommon
  import opened JsText
  import opened Seqs

  // ------------------------------------------------------------ uploads

  /** The four upload routes: the unified and the legacy path, for resumes and for recordings. */
  datatype UploadRoute = UploadsResume | LegacyResume | UploadsRecording | LegacyRecording

  /** The file multer attached to the request: where it was stored and under what name. */
  datatype StoredFile = StoredFile(path: string, filename: string)

  datatype UploadReply =
    | MissingFile(error: string)                     // 400 `{ error }`
    | LegacyMissingFile(message: string)             // 400 `{ success: false, message }`
    | Uploaded(path: string, filename: string)       // `{ ok: true, path, filename }`
    | LegacyUploaded(message: string, file: string)  // `{ success: true, message, file }`

  function UploadStatus(r: UploadReply): nat
  {
    if r.MissingFile? || r.LegacyMissingFile? then 400 else 200
  }

  predicate IsLegacy(route: UploadRoute)
  {
    route == LegacyResume || route == LegacyRecording
  }

  predicate IsResume(route: UploadRoute)
  {
    route == UploadsResume || route == LegacyResume
  }

  /** The reply of an upload route, given the file multer stored (or `None` when none was attached). */
  function Upload(route: UploadRoute, file: Option<StoredFile>): (r: UploadReply)
    ensures UploadStatus(r) == 400 <==> file.None?
    ensures file.None? ==> r == (if IsLegacy(route) then LegacyMissingFile(MissingMessage(route))
                                 else MissingFile(MissingMessage(route)))
    ensures file.Some? && !IsLegacy(route) ==> r == Uploaded(file.value.path, file.value.filename)
    ensures file.Some? && IsLegacy(route) ==>
              r == LegacyUploaded(if IsResume(route) then "Resume uploaded" else "Recording uploaded", file.value.filename)
  {
    match file
    case None => if IsLegacy(route) then LegacyMissingFile(MissingMessage(route)) else MissingFile(MissingMessage(route))
    case Some(f) =>
      if !IsLegacy(route) then Uploaded(f.path, f.filename)
      else LegacyUploaded(if IsResume(route) then "Resume uploaded" else "Recording uploaded", f.filename)
  }

  function MissingMessage(route: UploadRoute): (r: string)
    ensures r == (if IsResume(route) then "File required" else "Recording required")
  {
    if IsResume(route) then "File required" else "Recording required"
  }

  // ------------------------------------------------------------ the GitHub link

  datatype LinkReply = LinkMissing | LinkReceived

  /** `POST /github-link`: a missing or empty URL is a 400, anything else is acknowledged. */
  function GithubLink(githubUrl: Option<string>): (r: LinkReply)
    ensures r == LinkMissing <==> githubUrl.None? || githubUrl.value == ""
  {
    if githubUrl.None? || githubUrl.value == "" then LinkMissing else LinkReceived
  }

  // ------------------------------------------------------------ recordings

  datatype RecordingItem = RecordingItem(id: string, name: string, path: string, createdAt: string)

  /** The recordings endpoints answer with one of these. */
  datatype FileReply = NotFound | Found(path: string) | Deleted | DeleteFailed

  const RecordingsDir := "recordings"

  predicate Visible(name: string)
  {
    !StartsWith(name, ".")
  }

  /** The listing entry of one file: its name as id and name, and its path under the directory. */
  function ItemOf(name: string, mtime: string -> string): (r: RecordingItem)
    ensures r.id == name && r.name == name && r.path == RecordingsDir + "/" + name && r.createdAt == mtime(name)
  {
    RecordingItem(name, name, RecordingsDir + "/" + name, mtime(name))
  }

  /** `.map(f => ({ id: f, name: f, path, created_at }))`. */
  function Items(names: seq<string>, mtime: string -> string): (r: seq<RecordingItem>)
    ensures |r| == |names|
    ensures forall k :: 0 <= k < |names| ==> r[k] == ItemOf(names[k], mtime)
  {
    if names == [] then [] else Items(names[..|names| - 1], mtime) + [ItemOf(names[|names| - 1], mtime)]
  }

  /** The fallback listing when reading the directory throws: one mock recording created now. */
  function MockListing(now: string): (r: seq<RecordingItem>)
    ensures |r| == 1 && r[0].name == "mock1.webm" && r[0].path == RecordingsDir + "/" + r[0].name
    ensures r[0].id == r[0].name && r[0].createdAt == now
  {
    [RecordingItem("mock1.webm", "mock1.webm", "recordings/mock1.webm", now)]
  }

  /**
   * The `recordings` directory on disk: whether it exists and the names of its entries.
   * `Valid` says a missing directory has no entries, that names are distinct, and that an
   * entry's name holds no `/`.
   */
  class RecordingsDirectory {
    var present: bool
    var files: seq<string>

    predicate Valid()
      reads this
    {
      (!present ==> files == []) && NoDuplicates(files) && EntryNames(files)
    }

    constructor (present: bool, files: seq<string>)
      requires (!present ==> files == []) && NoDuplicates(files) && EntryNames(files)
      ensures Valid() && this.present == present && this.files == files
    {
      this.present := present;
      this.files := files;
    }

    /** `fs.existsSync('recordings/' + id)`. */
    predicate Has(id: string)
      reads this
    {
      present && id in files
    }

    /**
     * `GET /recordings`: no directory lists nothing; otherwise every entry not starting with
     * a dot, in directory order; a failure while reading or stat-ing gives the mock listing.
     */
    method List(listingThrows: bool, mtime: string -> string, now: string) returns (items: seq<RecordingItem>)
      requires Valid()
      ensures !present ==> items == []
      ensures present && listingThrows ==> items == MockListing(now)
      ensures present && !listingThrows ==> items == Items(Filter(files, Visible), mtime)
    {
      if !present {
        return [];
      }
      if listingThrows {
        return MockListing(now);
      }
      items := Items(Filter(files, Visible), mtime);
    }

    /**
     * `GET /recordings/:id` (and `/download`): 404 unless the file exists; a file whose name
     * starts with a dot exists but is not sent, since `sendFile` ignores dot-files by default,
     * which is a 404 as well.
     */
    method Get(id: string) returns (reply: FileReply)
      requires Valid()
      ensures reply.Found? <==> Has(id) && Visible(id)
      ensures reply.Found? ==> reply.path == RecordingsDir + "/" + id && '/' !in id
      ensures !reply.Found? ==> reply == NotFound
    {
      if !Has(id) || !Visible(id) {
        return NotFound;
      }
      reply := Found(RecordingsDir + "/" + id);
    }

    /**
     * `DELETE /recordings/:id`: 404 when the file does not exist; otherwise the file is
     * unlinked and the reply is ok, unless unlinking throws, which leaves it in place and is a 500.
     */
    method Delete(id: string, unlinkThrows: bool) returns (reply: FileReply)
      requires Valid()
      modifies this
      ensures Valid() && present == old(present)
      ensures old(Has(id)) ==> reply == (if unlinkThrows then DeleteFailed else Deleted)
      ensures !old(Has(id)) ==> reply == NotFound
      ensures reply == Deleted ==> id in old(files) && '/' !in id
      ensures reply == Deleted ==> files == Filter(old(files), (f: string) => f != id)
      ensures reply != Deleted ==> files == old(files)
    {
      if !Has(id) {
        return NotFound;
      }
      if unlinkThrows {
        return DeleteFailed;
      }
      FilterKeepsDistinct(files, (f: string) => f != id);
      files := Filter(files, (f: string) => f != id);
      reply := Deleted;
    }
  }

  /** Filtering a list without repeats keeps it without repeats. */
  lemma FilterKeepsDistinct<T>(s: seq<T>, p: T -> bool)
    requires NoDuplicates(s)
    ensures NoDuplicates(Filter(s, p))
  {
    FilterIsSubsequence(s, p);
    SubsequenceDistinct(Filter(s, p), s);
  }

  /** A subsequence of a list without repeats has none either. */
  lemma {:induction false} SubsequenceDistinct<T>(a: seq<T>, b: seq<T>)
    requires IsSubsequence(a, b) && NoDuplicates(b)
    ensures NoDuplicates(a)
    decreases |b|
  {
    if a != [] {
      var a', b' := a[..|a| - 1], b[..|b| - 1];
      assert NoDuplicates(b');
      if a[|a| - 1] == b[|b| - 1] {
        SubsequenceDistinct(a', b');
        SubsequenceMembers(a', b');
        forall i | 0 <= i < |a'|
          ensures a'[i] != a[|a| - 1]
        {
          assert a'[i] in b';
        }
      } else {
        SubsequenceDistinct(a, b');
      }
    }
  }

  /**
   * What a listing shows: only entries without a leading dot, each path under the directory,
   * and every such entry of the directory.
   */
  lemma ListingShape(files: seq<string>, mtime: string -> string)
    ensures var items := Items(Filter(files, Visible), mtime);
      (forall k :: 0 <= k < |items| ==>
         Visible(items[k].name) && items[k].name in files && items[k].id == items[k].name &&
         items[k].path == RecordingsDir + "/" + items[k].name) &&
      (forall k :: 0 <= k < |files| && Visible(files[k]) ==>
         exists j :: 0 <= j < |items| && items[j].name == files[k])
  {
    var names := Filter(files, Visible);
    var items := Items(names, mtime);
    forall k | 0 <= k < |files| && Visible(files[k])
      ensures exists j :: 0 <= j < |items| && items[j].name == files[k]
    {
      assert files[k] in names;
      var j :| 0 <= j < |names| && names[j] == files[k];
      assert items[j].name == files[k];
    }
  }

  /**
   * What a successful delete leaves: the named entry is gone (so fetching it again is a 404),
   * every other entry is still there, and the order of the rest is kept.
   */
  lemma DeleteRemovesOnly(files: seq<string>, id: string)
    ensures var left := Filter(files, (f: string) => f != id);
      id !in left && IsSubsequence(left, files) &&
      (forall k :: 0 <= k < |files| && files[k] != id ==> files[k] in left)
  {
    FilterIsSubsequence(files, (f: string) => f != id);
  }

  /** Names a directory listing can return: none holds a `/`. */
  predicate EntryNames(files: seq<string>)
  {
    forall k :: 0 <= k < |files| ==> '/' !in files[k]
  }

  // ------------------------------------------------------------ resolving a request path

  /**
   * One segment of a relative path applied to the segments before it, as the file system
   * resolves it: empty and `.` segments change nothing, `..` removes the segment before it
   * (or stays when there is none to remove).
   */
  function Step(before: seq<string>, segment: string): seq<string>
  {
    if segment == "" || segment == "." then before
    else if segment == ".." then
      if before != [] && before[|before| - 1] != ".." then before[..|before| - 1] else before + [".."]
    else before + [segment]
  }

  /** The segments a relative path reaches, its own segments applied left to right. */
  function Resolve(segments: seq<string>): (r: seq<string>)
    ensures forall k :: 0 <= k < |r| ==> r[k] != "" && r[k] != "."
  {
    if segments == [] then [] else Step(Resolve(segments[..|segments| - 1]), segments[|segments| - 1])
  }

  /**
   * The file `recordings/${req.params.id}` names. Express decodes the parameter, so an id sent
   * as `..%2Findex.js` arrives as `../index.js`.
   */
  function Target(id: string): seq<string>
  {
    Resolve(Split(RecordingsDir + "/" + id, '/'))
  }

  /** A plain entry name reaches that entry of the recordings directory. */
  lemma EntryTarget(id: string)
    requires '/' !in id && id != "" && id != "." && id != ".."
    ensures Target(id) == [RecordingsDir, id]
  {
    assert '/' !in RecordingsDir;
    SplitAtSeparator(RecordingsDir, '/', id);
    SplitWithout(id, '/');
    var segments := [RecordingsDir, id];
    assert Split(RecordingsDir + "/" + id, '/') == segments;
    RecordingsOnly();
    assert segments[..1] == [RecordingsDir];
  }

  lemma RecordingsOnly()
    ensures Resolve([RecordingsDir]) == [RecordingsDir]
  {
    assert [RecordingsDir][..0] == [];
  }

  /**
   * `DELETE /recordings/:id` as written, over the whole disk as the set of the files' resolved
   * paths: the file the id reaches is unlinked whenever it exists, inside the directory or not.
   */
  function DeleteAsWritten(disk: set<seq<string>>, id: string, unlinkThrows: bool): (r: (FileReply, set<seq<string>>))
    ensures Target(id) !in disk ==> r == (NotFound, disk)
    ensures Target(id) in disk && unlinkThrows ==> r == (DeleteFailed, disk)
    ensures Target(id) in disk && !unlinkThrows ==> r.0 == Deleted && r.1 == disk - {Target(id)}
  {
    var file := Target(id);
    if file !in disk then (NotFound, disk)
    else if unlinkThrows then (DeleteFailed, disk)
    else (Deleted, disk - {file})
  }

  /**
   * The id `../index.js` deletes the server's own `index.js`, which is not in the recordings
   * directory; the recording stays.
   */
  lemma TraversalDeletesOutside()
    ensures DeleteAsWritten({["index.js"], [RecordingsDir, "a.webm"]}, "../index.js", false) ==
            (Deleted, {[RecordingsDir, "a.webm"]})
  {
    TraversalTarget();
    var disk: set<seq<string>> := {["index.js"], [RecordingsDir, "a.webm"]};
    assert ["index.js"] != [RecordingsDir, "a.webm"];
    assert disk - {["index.js"]} == {[RecordingsDir, "a.webm"]};
  }

  /** `recordings/../index.js` reaches `index.js` beside the directory. */
  lemma TraversalTarget()
    ensures Target("../index.js") == ["index.js"]
  {
    TraversalSegments();
    var segments := [RecordingsDir, "..", "index.js"];
    RecordingsOnly();
    assert [RecordingsDir, ".."][..1] == [RecordingsDir];
    assert Resolve([RecordingsDir, ".."]) == Step([RecordingsDir], "..") == [];
    assert segments[..2] == [RecordingsDir, ".."];
    assert Resolve(segments) == Step([], "index.js") == ["index.js"];
  }

  lemma TraversalSegments()
    ensures Split(RecordingsDir + "/" + "../index.js", '/') == [RecordingsDir, "..", "index.js"]
  {
    assert RecordingsDir + "/" + "../index.js" == RecordingsDir + "/" + ".." + "/" + "index.js";
    ThreeSegments(RecordingsDir, "..", "index.js");
  }

  /** Three names without `/`, joined by `/`, split back into those three. */
  lemma ThreeSegments(a: string, b: string, c: string)
    requires '/' !in a && '/' !in b && '/' !in c
    ensures Split(a + "/" + b + "/" + c, '/') == [a, b, c]
  {
    assert a + "/" + b + "/" + c == a + ['/'] + (b + ['/'] + c);
    SplitAtSeparator(a, '/', b + ['/'] + c);
    SplitAtSeparator(b, '/', c);
    SplitWithout(c, '/');
  }
}
