// The upload router's storage rules: recordings and other uploads go to separate
// directories, stored names are the sanitised base name, a timestamp and the extension,
// files are capped at 200 MiB, and only `.pdf` resumes are accepted.

module Uploads {
  import opened JsCommon
  import opened JsText

  const RecordingsDir := "recordings"
  const UploadsDir := "uploads"

  /** The upload size limit: 200 MiB. */
  const MaxFileSize: nat := 1024 * 1024 * 200

  /** The storage `destination`: the recordings directory for the `recording` field, the uploads directory otherwise. */
  function Destination(cwd: string, fieldname: string): (r: string)
    ensures fieldname == "recording" ==> r == cwd + "/" + RecordingsDir
    ensures fieldname != "recording" ==> r == cwd + "/" + UploadsDir
    ensures r == cwd + "/" + RecordingsDir <==> fieldname == "recording"
  {
    if fieldname == "recording" then cwd + "/" + RecordingsDir else cwd + "/" + UploadsDir
  }

  // ------------------------------------------------------------ file names

  /**
   * `path.extname` of a file name (no directory part): from the last dot to the end, except
   * that there is none when there is no dot, when the only dots lead the name, or for "..".
   */
  function ExtName(name: string): (r: string)
    ensures r == [] || (r[0] == '.' && '.' !in r[1..] && EndsWith(name, r))
    ensures '.' !in name ==> r == []
    ensures LastIndex(name, '.').Some? && LastIndex(name, '.').value > 0 && name != ".." ==>
              r == name[LastIndex(name, '.').value..]
    ensures LastIndex(name, '.') == Some(0) ==> r == []
  {
    match LastIndex(name, '.')
    case None => []
    case Some(d) =>
      if d == 0 || (name[0] == '.' && name == "..") then []
      else name[d..]
  }

  /** `path.parse(name).name`: the name without its extension. */
  function BaseName(name: string): (r: string)
    ensures r + ExtName(name) == name
  {
    name[..|name| - |ExtName(name)|]
  }

  predicate Allowed(c: char)
  {
    IsUpper(c) || IsLower(c) || IsDigit(c) || c == '-' || c == '_'
  }

  /** `.replace(/[^a-zA-Z0-9-_]/g, '_')`: every other character becomes an underscore, so the length is kept. */
  function Sanitize(s: string): (r: string)
    ensures |r| == |s|
    ensures forall k :: 0 <= k < |s| ==> r[k] == (if Allowed(s[k]) then s[k] else '_')
  {
    if s == [] then [] else [if Allowed(s[0]) then s[0] else '_'] + Sanitize(s[1..])
  }

  /** The stored extension: the original's, or `.webm` for an extension-less `video/webm` upload. */
  function StoredExt(originalName: string, mimetype: string): (r: string)
    ensures ExtName(originalName) != [] ==> r == ExtName(originalName)
    ensures ExtName(originalName) == [] ==> r == (if mimetype == "video/webm" then ".webm" else "")
  {
    var ext := ExtName(originalName);
    if ext != [] then ext else if mimetype == "video/webm" then ".webm" else ""
  }

  /**
   * The storage `filename`: sanitised base name, a hyphen, the timestamp `now` in milliseconds, the
   * extension. So it ends in the stored extension, and everything before it is letters, digits,
   * hyphens and underscores.
   */
  function FileName(originalName: string, mimetype: string, now: nat): (r: string)
    ensures EndsWith(r, StoredExt(originalName, mimetype))
    ensures |r| > |BaseName(originalName)| + |StoredExt(originalName, mimetype)|
    ensures forall k :: 0 <= k < |r| - |StoredExt(originalName, mimetype)| ==> Allowed(r[k])
  {
    var head := Sanitize(BaseName(originalName)) + "-" + Decimal(now);
    var ext := StoredExt(originalName, mimetype);
    StemAllowed(Sanitize(BaseName(originalName)), Decimal(now));
    assert (head + ext)[|head|..] == ext;
    PrefixAllowed(head, ext);
    head + ext
  }

  predicate AllAllowed(s: string)
  {
    forall k :: 0 <= k < |s| ==> Allowed(s[k])
  }

  /** A sanitised name, a hyphen and decimal digits are all allowed characters. */
  lemma StemAllowed(base: string, digits: string)
    requires AllAllowed(base)
    requires forall k :: 0 <= k < |digits| ==> IsDigit(digits[k])
    ensures AllAllowed(base + "-" + digits)
  {
    var head := base + "-" + digits;
    forall k | 0 <= k < |head|
      ensures Allowed(head[k])
    {
      if k < |base| {
        assert head[k] == base[k];
      } else if k > |base| {
        assert head[k] == digits[k - |base| - 1];
      }
    }
  }

  lemma PrefixAllowed(head: string, ext: string)
    requires AllAllowed(head)
    ensures forall k :: 0 <= k < |head| ==> Allowed((head + ext)[k])
  {
  }

  /**
   * The stored name's extension is the stored extension: the sanitised base, the hyphen and the
   * digits hold no dot, so the last dot of the stored name is the one the extension starts with.
   */
  lemma {:induction false} StoredNameExtension(originalName: string, mimetype: string, now: nat)
    ensures ExtName(FileName(originalName, mimetype, now)) == StoredExt(originalName, mimetype)
  {
    var base := Sanitize(BaseName(originalName));
    var digits := Decimal(now);
    assert '.' !in base by {
      assert forall k :: 0 <= k < |base| ==> base[k] != '.';
    }
    assert '.' !in digits by {
      assert forall k :: 0 <= k < |digits| ==> IsDigit(digits[k]);
    }
    var head := base + "-" + digits;
    assert '.' !in head;
    ExtensionAfter(head, StoredExt(originalName, mimetype));
  }

  /** A dot-free stem followed by an extension, as `ExtName` returns one, has that extension. */
  lemma ExtensionAfter(head: string, ext: string)
    requires '.' !in head && |head| > 0
    requires ext == [] || (ext[0] == '.' && '.' !in ext[1..])
    ensures ExtName(head + ext) == ext
  {
    var name := head + ext;
    if ext == [] {
      assert name == head;
    } else {
      var d := |head|;
      assert name[d..] == ext;
      assert name[d + 1..] == ext[1..];
      LastDotAt(name, d);
    }
  }

  /** The last dot of a name is found where it is. */
  lemma LastDotAt(name: string, d: nat)
    requires d < |name| && name[d] == '.' && '.' !in name[d + 1..]
    ensures LastIndex(name, '.') == Some(d)
  {
  }

  // ------------------------------------------------------------ the routes

  datatype UploadReply = NoFile | OnlyPdf | Stored(path: string)

  function Status(r: UploadReply): nat
  {
    if r.Stored? then 200 else 400
  }

  /** `POST /resume`: a missing file is a 400, a stored name whose extension is not `.pdf` in any case is a 400. */
  function ResumeUpload(file: Option<(string, string)>): (r: UploadReply)
    ensures r == NoFile <==> file.None?
    ensures file.Some? ==> (r.Stored? <==> Lower(ExtName(file.value.0)) == ".pdf")
    ensures r.Stored? ==> r.path == file.value.1
  {
    match file
    case None => NoFile
    case Some((filename, path)) => if Lower(ExtName(filename)) != ".pdf" then OnlyPdf else Stored(path)
  }

  /** `POST /recording`: a missing file is a 400; otherwise the stored path is reported. */
  function RecordingUpload(file: Option<string>): (r: UploadReply)
    ensures r == NoFile <==> file.None?
    ensures r.Stored? <==> file.Some?
  {
    match file
    case None => NoFile
    case Some(path) => Stored(path)
  }

  /** A resume is kept exactly when its original name ends in a `.pdf` extension, in any letter case. */
  lemma ResumeKeptIffPdf(originalName: string, mimetype: string, now: nat, path: string)
    ensures ResumeUpload(Some((FileName(originalName, mimetype, now), path))).Stored? <==>
              Lower(StoredExt(originalName, mimetype)) == ".pdf"
  {
    StoredNameExtension(originalName, mimetype, now);
  }
}
