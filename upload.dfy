/**
 * Upload intake: multer's disk storage (destination and filename callbacks)
 * and the MIME-type file filter of server/app.js.
 */
module Upload {
  import opened Js

  /** The multipart part named `image`, as multer reads it before filtering. */
  datatype Part = Part(mimetype: string, originalname: string)

  /** The descriptor multer attaches as `req.file` once a part is written. */
  datatype FileDescriptor = FileDescriptor(
    mimetype: string,
    originalname: string,
    destination: string,
    filename: string,
    path: string)

  const AcceptedMimeTypes: set<string> := {"image/png", "image/jpg", "image/jpeg"}

  /** The directory the `destination` callback names. */
  const Destination: string := "images"

  /** `fileFilter`: accept the part (cb(null, true)) or drop it silently (cb(null, false)). */
  function FileFilter(part: Part): (accept: bool)
    ensures accept <==> part.mimetype in AcceptedMimeTypes
  {
    part.mimetype == "image/png" || part.mimetype == "image/jpg" || part.mimetype == "image/jpeg"
  }

  predicate IsDigit(c: char) {
    '0' <= c <= '9'
  }

  /**
   * A string as `Date.prototype.toISOString` writes it for the years
   * 0 to 9999: `YYYY-MM-DDTHH:mm:ss.sssZ`, always 24 characters.
   */
  predicate IsIsoTimestamp(ts: string) {
    |ts| == 24 &&
    ts[4] == '-' && ts[7] == '-' && ts[10] == 'T' &&
    ts[13] == ':' && ts[16] == ':' && ts[19] == '.' && ts[23] == 'Z' &&
    forall i :: 0 <= i < 24 && i !in {4, 7, 10, 13, 16, 19, 23} ==> IsDigit(ts[i])
  }

  /** The `filename` callback: the timestamp, a dash, then the client's file name. */
  function StoredFilename(timestamp: string, originalname: string): (name: string)
    ensures |name| == |timestamp| + 1 + |originalname|
  {
    timestamp + "-" + originalname
  }

  /**
   * The inverse of StoredFilename for ISO timestamps: split a stored name
   * back into its timestamp and the client's file name.
   */
  function SplitStoredFilename(name: string): (parts: Option<(string, string)>)
    ensures parts.Some? ==> IsIsoTimestamp(parts.value.0)
  {
    if |name| >= 25 && IsIsoTimestamp(name[..24]) && name[24] == '-' then
      Some((name[..24], name[25..]))
    else
      None
  }

  /** Where multer's disk storage puts a file: the destination joined with its name. */
  function StoredPath(filename: string): string {
    Destination + "/" + filename
  }

  /**
   * What multer attaches as `req.file` for one request: nothing without a
   * part or when the filter drops it; otherwise the part, written under
   * its timestamped name in `images`.
   */
  function Intake(upload: Option<Part>, timestamp: string): (file: Option<FileDescriptor>)
    ensures file.Some? <==> upload.Some? && upload.value.mimetype in AcceptedMimeTypes
    ensures file.Some? ==>
      file.value.mimetype == upload.value.mimetype &&
      file.value.originalname == upload.value.originalname &&
      file.value.destination == Destination &&
      file.value.path == StoredPath(file.value.filename)
    ensures file.Some? && IsIsoTimestamp(timestamp) ==>
      SplitStoredFilename(file.value.filename) == Some((timestamp, upload.value.originalname))
  {
    match upload
    case None => None
    case Some(part) =>
      if FileFilter(part) then
        var name := StoredFilename(timestamp, part.originalname);
        SplitRoundTrip(timestamp, part.originalname);
        Some(FileDescriptor(part.mimetype, part.originalname, Destination, name, StoredPath(name)))
      else
        None
  }

  /** Splitting a stored name gives back the timestamp and the client's file name. */
  lemma SplitRoundTrip(timestamp: string, originalname: string)
    ensures IsIsoTimestamp(timestamp) ==>
      SplitStoredFilename(StoredFilename(timestamp, originalname)) == Some((timestamp, originalname))
  {
    if IsIsoTimestamp(timestamp) {
      var name := StoredFilename(timestamp, originalname);
      assert name[..24] == timestamp;
      assert name[25..] == originalname;
    }
  }

  /** Every name SplitStoredFilename accepts is the stored name of its parts. */
  lemma SplitIsInverse(name: string)
    ensures SplitStoredFilename(name).Some? ==>
      StoredFilename(SplitStoredFilename(name).value.0, SplitStoredFilename(name).value.1) == name
  {
  }

  /**
   * With ISO timestamps the stored name determines both the timestamp and
   * the client's file name: two uploads share a name only when both agree.
   */
  lemma StoredFilenameInjective(t1: string, n1: string, t2: string, n2: string)
    requires IsIsoTimestamp(t1) && IsIsoTimestamp(t2)
    ensures StoredFilename(t1, n1) == StoredFilename(t2, n2) <==> t1 == t2 && n1 == n2
  {
    SplitRoundTrip(t1, n1);
    SplitRoundTrip(t2, n2);
  }

  /**
   * Two accepted uploads whose timestamps differ are written to different
   * paths, whatever their client-side names.
   */
  lemma DistinctTimestampsDistinctPaths(p1: Part, t1: string, p2: Part, t2: string)
    requires IsIsoTimestamp(t1) && IsIsoTimestamp(t2) && t1 != t2
    requires FileFilter(p1) && FileFilter(p2)
    ensures Intake(Some(p1), t1).Some? && Intake(Some(p2), t2).Some?
    ensures Intake(Some(p1), t1).value.path != Intake(Some(p2), t2).value.path
  {
    var f1, f2 := Intake(Some(p1), t1).value, Intake(Some(p2), t2).value;
    assert f1.filename == f1.path[|Destination| + 1..];
    assert f2.filename == f2.path[|Destination| + 1..];
  }
}
