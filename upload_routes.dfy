/**
 * The upload routes of the founder and seeker routers: the video MIME allow
 * list, the per-router size limit, the stored file name, and the way a
 * single-file `video` upload accepts or rejects each incoming file.
 */
module UploadRoutes {
  import opened Wrappers
  import opened Text
  import opened Kinds
  import EH = ErrorHandler

  const MiB: nat := 1024 * 1024
  const AllowedTypes: seq<string> := ["video/mp4", "video/quicktime", "video/x-msvideo", "video/webm"]
  const InvalidTypeError: string := "Invalid file type. Only video files are allowed."
  const VideoField: string := "video"

  /** `limits.fileSize` of each router, in bytes. */
  function SizeLimit(kind: Kind): (n: nat)
    ensures kind == Seeker ==> n == 100 * 1024 * 1024
    ensures kind == Founder ==> n == 200 * 1024 * 1024
  {
    match kind
    case Seeker => 100 * MiB
    case Founder => 200 * MiB
  }

  /** The error the file filter raises for a type outside the list. */
  function TypeError(): EH.Error {
    EH.Error("Error", EH.NoCode, Some(InvalidTypeError), None, [])
  }

  /** The error Multer raises with a code. */
  function MulterError(code: string, message: string): EH.Error {
    EH.Error("MulterError", EH.StrCode(code), Some(message), None, [])
  }

  /** `fileFilter`: accept a listed type, otherwise fail with the type error. */
  function FileFilter(mimetype: string): (r: Result<(), EH.Error>)
    ensures r.Ok? <==> mimetype in AllowedTypes
    ensures r.Err? ==> r.error == TypeError() && StartsWith(r.error.message.value, "Invalid file type")
  {
    if mimetype in AllowedTypes then Ok(()) else Err(TypeError())
  }

  /** Exactly the four video types pass the filter. */
  lemma FileFilterAccepts(mimetype: string)
    ensures FileFilter(mimetype).Ok? <==>
      mimetype == "video/mp4" || mimetype == "video/quicktime" ||
      mimetype == "video/x-msvideo" || mimetype == "video/webm"
  {
  }

  /** The error handler answers a rejected type with 400. */
  lemma RejectedTypeIs400(mimetype: string)
    requires FileFilter(mimetype).Err?
    ensures EH.Handle(FileFilter(mimetype).error).status == 400
    ensures EH.Handle(FileFilter(mimetype).error).message == EH.InvalidTypeMessage
  {
    var m := InvalidTypeError;
    assert OccursAt(m, EH.InvalidTypeMarker, 0) by {
      assert m[0..|EH.InvalidTypeMarker|] == EH.InvalidTypeMarker;
    }
  }

  // ---------------------------------------------------------------------------
  // path.extname

  /** Index of the last `c` in `s`, if any. */
  function LastIndexOf(s: string, c: char): (r: Option<nat>)
    ensures r.Some? ==> r.value < |s| && s[r.value] == c && forall k :: r.value < k < |s| ==> s[k] != c
    ensures r.None? ==> forall k :: 0 <= k < |s| ==> s[k] != c
  {
    if s == [] then None
    else if s[|s| - 1] == c then Some(|s| - 1)
    else LastIndexOf(s[..|s| - 1], c)
  }

  /** The path with its trailing slashes removed. */
  function DropTrailingSlashes(p: string): (r: string)
    ensures |r| <= |p| && r == p[..|r|]
    ensures r == [] || r[|r| - 1] != '/'
  {
    if p != [] && p[|p| - 1] == '/' then DropTrailingSlashes(p[..|p| - 1]) else p
  }

  /** The last path component. */
  function Basename(p: string): (r: string)
    ensures '/' !in r
  {
    var q := DropTrailingSlashes(p);
    match LastIndexOf(q, '/')
    case None => q
    case Some(i) => q[i + 1..]
  }

  /**
   * `path.extname`: from the last `.` of the last component to its end; empty
   * when the component has no dot, starts with its only leading dot run up to
   * that dot at index 0, or is `..`.
   */
  function Extname(p: string): (r: string)
    ensures r == [] || (r[0] == '.' && '.' !in r[1..] && '/' !in r)
  {
    var b := Basename(p);
    match LastIndexOf(b, '.')
    case None => ""
    case Some(d) => if d == 0 || b == ".." then "" else b[d..]
  }

  /** `file.fieldname + '-' + Date.now() + '-' + Math.round(Math.random() * 1E9) + path.extname(file.originalname)` */
  function StoredFileName(fieldname: string, now: nat, random: nat, originalname: string): string {
    fieldname + "-" + NatToString(now) + "-" + NatToString(random) + Extname(originalname)
  }

  /** A name without slashes is its own last component. */
  lemma BasenameOfPlainName(p: string)
    requires forall k :: 0 <= k < |p| ==> p[k] != '/'
    ensures Basename(p) == p
  {
    assert DropTrailingSlashes(p) == p;
  }

  /** The last `c` is at `i` when `c` is there and nowhere to its right. */
  lemma {:induction false} LastIndexOfAt(s: string, c: char, i: nat)
    requires i < |s| && s[i] == c && forall k :: i < k < |s| ==> s[k] != c
    ensures LastIndexOf(s, c) == Some(i)
  {
    if i < |s| - 1 {
      var init := s[..|s| - 1];
      LastIndexOfAt(init, c, i);
    }
  }

  /** A plain `stem.ext` name has extension `.ext`. */
  lemma ExtnameOfPlainName(stem: string, ext: string)
    requires stem != [] && stem != "." && '/' !in stem && '/' !in ext && '.' !in ext
    ensures Extname(stem + "." + ext) == "." + ext
  {
    var p := stem + "." + ext;
    forall k | 0 <= k < |p| ensures p[k] != '/' {
      if k < |stem| { assert p[k] == stem[k]; }
      else if k > |stem| { assert p[k] == ext[k - |stem| - 1]; }
    }
    BasenameOfPlainName(p);
    forall k | |stem| < k < |p| ensures p[k] != '.' {
      assert p[k] == ext[k - |stem| - 1];
    }
    LastIndexOfAt(p, '.', |stem|);
    assert p[|stem|..] == "." + ext;
  }

  /** A name whose last component has no dot has no extension. */
  lemma ExtnameWithoutDot(p: string)
    requires forall k :: 0 <= k < |p| ==> p[k] != '/' && p[k] != '.'
    ensures Extname(p) == ""
  {
    BasenameOfPlainName(p);
  }

  /** Putting a plain head before a name's extension leaves that extension in place. */
  lemma ExtnameAfterPlainHead(head: string, e: string)
    requires head != [] && forall k :: 0 <= k < |head| ==> head[k] != '/' && head[k] != '.'
    requires e == [] || (e[0] == '.' && '.' !in e[1..] && '/' !in e)
    ensures Extname(head + e) == e
  {
    if e == [] {
      assert head + e == head;
      ExtnameWithoutDot(head);
    } else {
      assert head[0] != '.';
      assert e == "." + e[1..];
      assert head + e == head + "." + e[1..];
      ExtnameOfPlainName(head, e[1..]);
    }
  }

  /**
   * The stored name keeps the original's extension: it ends with it, and its
   * own extension is the original's, for a field name without dots or slashes.
   */
  lemma StoredNameKeepsExtension(fieldname: string, now: nat, random: nat, originalname: string)
    requires '.' !in fieldname && '/' !in fieldname
    ensures EndsWith(StoredFileName(fieldname, now, random, originalname), Extname(originalname))
    ensures Extname(StoredFileName(fieldname, now, random, originalname)) == Extname(originalname)
  {
    var e := Extname(originalname);
    var head := fieldname + "-" + NatToString(now) + "-" + NatToString(random);
    HeadIsPlain(fieldname, NatToString(now), NatToString(random));
    var p := head + e;
    assert p[|p| - |e|..] == e;
    ExtnameAfterPlainHead(head, e);
  }

  lemma HeadIsPlain(fieldname: string, a: string, b: string)
    requires '.' !in fieldname && '/' !in fieldname && AllDigits(a) && AllDigits(b)
    ensures var head := fieldname + "-" + a + "-" + b;
      head != [] && forall k :: 0 <= k < |head| ==> head[k] != '/' && head[k] != '.'
  {
    var head := fieldname + "-" + a + "-" + b;
    DigitsHaveNoDots(a);
    DigitsHaveNoDots(b);
    forall k | 0 <= k < |head| ensures head[k] != '/' && head[k] != '.' {
      if k < |fieldname| {
        assert head[k] == fieldname[k];
      } else if k == |fieldname| {
      } else if k <= |fieldname| + |a| {
        assert head[k] == a[k - |fieldname| - 1];
      } else if k == |fieldname| + |a| + 1 {
      } else {
        assert head[k] == b[k - |fieldname| - |a| - 2];
      }
    }
  }

  lemma DigitsHaveNoDots(s: string)
    requires AllDigits(s)
    ensures forall k :: 0 <= k < |s| ==> s[k] != '.' && s[k] != '/'
  {
    forall k | 0 <= k < |s| ensures s[k] != '.' && s[k] != '/' {
      assert IsDigit(s[k]);
    }
  }

  // ---------------------------------------------------------------------------
  // upload.single('video')

  /** A file part of a multipart request. */
  datatype Incoming = Incoming(fieldname: string, originalname: string, mimetype: string, size: nat)

  /**
   * `upload.single('video')` over the file parts in arrival order: a part under
   * another field, or a second `video` part, is an unexpected file; then the
   * type filter runs; then a part larger than the limit is too large. The
   * result is the accepted part, if any.
   */
  function Single(files: seq<Incoming>, limit: nat, accepted: Option<Incoming>): (r: Result<Option<Incoming>, EH.Error>)
    decreases |files|
  {
    if files == [] then Ok(accepted)
    else
      var f := files[0];
      if f.fieldname != VideoField || accepted.Some? then
        Err(MulterError("LIMIT_UNEXPECTED_FILE", "Unexpected field"))
      else if FileFilter(f.mimetype).Err? then
        Err(FileFilter(f.mimetype).error)
      else if f.size > limit then
        Err(MulterError("LIMIT_FILE_SIZE", "File too large"))
      else Single(files[1..], limit, Some(f))
  }

  /** What a route of a router makes of the file parts of one request. */
  function Ingest(kind: Kind, files: seq<Incoming>): Result<Option<Incoming>, EH.Error> {
    Single(files, SizeLimit(kind), None)
  }

  /**
   * A request passes exactly when it has at most one file part, under `video`,
   * of an allowed type and no larger than the limit; the size limit itself is
   * allowed.
   */
  lemma IngestAccepts(kind: Kind, files: seq<Incoming>)
    ensures Ingest(kind, files).Ok? <==>
      (files == [] ||
       (|files| == 1 && files[0].fieldname == VideoField && files[0].mimetype in AllowedTypes
        && files[0].size <= SizeLimit(kind)))
    ensures Ingest(kind, files).Ok? ==> Ingest(kind, files).value == (if files == [] then None else Some(files[0]))
  {
    var limit := SizeLimit(kind);
    if files != [] && files[0].fieldname == VideoField && files[0].mimetype in AllowedTypes
       && files[0].size <= limit {
      assert Single(files, limit, None) == Single(files[1..], limit, Some(files[0]));
      if |files| >= 2 {
        SecondFileUnexpected(files[1..], limit, files[0]);
      } else {
        assert files[1..] == [];
      }
    }
  }

  /** Once a file is taken, any further file part is unexpected. */
  lemma SecondFileUnexpected(files: seq<Incoming>, limit: nat, f: Incoming)
    requires files != []
    ensures Single(files, limit, Some(f)) == Err(MulterError("LIMIT_UNEXPECTED_FILE", "Unexpected field"))
  {
  }

  /** Every rejection of an upload is answered with 400. */
  lemma IngestErrorsAre400(kind: Kind, files: seq<Incoming>)
    requires Ingest(kind, files).Err?
    ensures EH.Handle(Ingest(kind, files).error).status == 400
  {
    var limit := SizeLimit(kind);
    var f := files[0];
    MulterErrorsAre400();
    if f.fieldname != VideoField {
    } else if FileFilter(f.mimetype).Err? {
      RejectedTypeIs400(f.mimetype);
    } else if f.size > limit {
    } else {
      assert Single(files, limit, None) == Single(files[1..], limit, Some(f));
      SecondFileUnexpected(files[1..], limit, f);
    }
  }

  lemma MulterErrorsAre400()
    ensures EH.Handle(MulterError("LIMIT_UNEXPECTED_FILE", "Unexpected field")).status == 400
    ensures EH.Handle(MulterError("LIMIT_FILE_SIZE", "File too large")).status == 400
  {
    assert "LIMIT_UNEXPECTED_FILE"[6] != "LIMIT_FILE_SIZE"[6];
  }

  /**
   * A single video part over the router's limit is refused as too large and
   * answered 400 with the too-large message, whichever router it reached.
   */
  lemma TooLargeForRouter(kind: Kind, f: Incoming)
    requires f.fieldname == VideoField && f.mimetype in AllowedTypes && f.size > SizeLimit(kind)
    ensures Ingest(kind, [f]) == Err(MulterError("LIMIT_FILE_SIZE", "File too large"))
    ensures EH.Handle(Ingest(kind, [f]).error).status == 400
    ensures EH.Handle(Ingest(kind, [f]).error).message == EH.FileTooLargeMessage
  {
    MulterErrorsAre400();
  }

  /** A file between the two routers' limits is taken by the founder routes and refused by the seeker routes. */
  lemma LimitsDiffer(f: Incoming)
    requires f.fieldname == VideoField && f.mimetype in AllowedTypes
    requires 100 * MiB < f.size <= 200 * MiB
    ensures Ingest(Founder, [f]) == Ok(Some(f))
    ensures Ingest(Seeker, [f]).Err? && EH.IsFileTooLarge(Ingest(Seeker, [f]).error)
  {
    assert [f][1..] == [];
    assert FileFilter(f.mimetype).Ok?;
    assert f.size <= SizeLimit(Founder) && f.size > SizeLimit(Seeker);
    assert Single([f], SizeLimit(Founder), None) == Single([], SizeLimit(Founder), Some(f));
  }

  /** The routes that take an upload, per router: each takes a single file under `video`. */
  function UploadRoutes(kind: Kind): (r: seq<string>)
    ensures |r| == 2 && r[1] == "/upload-video"
  {
    match kind
    case Seeker => ["/application", "/upload-video"]
    case Founder => ["/pitch", "/upload-video"]
  }
}
