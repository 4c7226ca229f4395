/** The task handler the queue calls for each job: it parses the job's `gs://` location
    and answers with a status that says whether the object exists yet. The storage lookup
    is an outside capability, seen only through its outcome. */
module TaskHandler {
  import opened Wrappers
  import opened Strings
  import opened Gcs

  /** The result of parsing a location. `IndexPanic` is the run-time panic of indexing the
      second part of a split that found no `/`. */
  datatype ParsedPath = Parsed(bucket: string, objectPath: string) | InvalidLocation | IndexPanic

  /** `/` occurs at `j` exactly when the character at `j` is `/`. */
  lemma SlashAt(s: string, j: int)
    requires 0 <= j < |s|
    ensures OccursAt(s, "/", j) <==> s[j] == '/'
  {
    if s[j] == '/' {
      assert s[j..j + 1] == "/";
    }
  }

  /** Splits `gs://{bucket}/{object}` on the first `/` after the scheme, so the bucket holds
      no `/` while the object may. */
  function ParseBucketPath(gcsPath: string): (r: ParsedPath)
    ensures r.InvalidLocation? <==> !("gs://" <= gcsPath)
    ensures r.IndexPanic? <==> "gs://" <= gcsPath && '/' !in gcsPath[5..]
    ensures r.Parsed? ==> gcsPath == GcsUri(r.bucket, r.objectPath) && '/' !in r.bucket
  {
    if !("gs://" <= gcsPath) then InvalidLocation
    else
      var path := gcsPath[5..];
      match Find(path, "/")
      case None =>
        assert '/' !in path by {
          forall j | 0 <= j < |path| ensures path[j] != '/' {
            SlashAt(path, j);
          }
        }
        IndexPanic
      case Some(i) =>
        SlashAt(path, i);
        assert '/' !in path[..i] by {
          forall j | 0 <= j < i ensures path[..i][j] != '/' {
            SlashAt(path, j);
          }
        }
        assert path == path[..i] + "/" + path[i + 1..];
        Parsed(path[..i], path[i + 1..])
  }

  /** A location built from a bucket name without `/` parses back to that bucket and that
      object, whatever `/`s the object holds. */
  lemma ParseBuiltPath(bucket: string, obj: string)
    requires '/' !in bucket
    ensures ParseBucketPath(GcsUri(bucket, obj)) == Parsed(bucket, obj)
  {
    var u := GcsUri(bucket, obj);
    assert u[5..][|bucket|] == '/';
    var r := ParseBucketPath(u);
    assert r.Parsed?;
    var b := r.bucket;
    // the two decompositions agree up to the first `/`, which neither bucket contains
    assert u[5..] == b + "/" + r.objectPath == bucket + "/" + obj;
    assert b == u[5..][..|b|] == bucket;
    assert r.objectPath == u[5..][|b| + 1..] == obj;
  }

  /** A `gs://` location with no `/` after the bucket makes the parser panic. */
  lemma NoObjectPanics(bucket: string)
    requires '/' !in bucket
    ensures ParseBucketPath("gs://" + bucket) == IndexPanic
  {
    assert ("gs://" + bucket)[5..] == bucket;
  }

  /** What the storage lookup of an object's attributes reports. */
  datatype AttrsOutcome = Exists | NotExist | OtherErr

  /** What reading the request body gives: a read error, or the `gcsPath` field decoded
      from it (empty when the JSON does not decode or has no such field). */
  datatype RequestBody = ReadFailed | Decoded(gcsPath: string)

  datatype Request = Request(httpMethod: string, body: RequestBody)

  /** An HTTP response writer: the first status written is the one sent, and every later
      write is ignored. */
  class ResponseWriter {
    var status: Option<int>

    constructor ()
      ensures status == None
    {
      status := None;
    }

    method WriteHeader(code: int)
      modifies this
      ensures status == if old(status).None? then Some(code) else old(status)
    {
      if status.None? {
        status := Some(code);
      }
    }
  }

  /** Handles one call from the queue on a fresh writer. `panicked` reports the run-time
      panics: a body that cannot be read, or a location with no object part. A lookup error
      other than a missing object writes 500 and then falls through to the write of 200,
      which is ignored. */
  method Handler(w: ResponseWriter, req: Request, attrs: (string, string) -> AttrsOutcome)
    returns (panicked: bool)
    requires w.status.None?
    modifies w
    ensures panicked ==> w.status == None
    ensures req.httpMethod != "POST" ==> !panicked && w.status == Some(404)
    ensures req.httpMethod == "POST" && req.body.ReadFailed? ==> panicked
    ensures req.httpMethod == "POST" && req.body.Decoded? ==>
              match ParseBucketPath(req.body.gcsPath)
              case InvalidLocation => !panicked && w.status == Some(400)
              case IndexPanic => panicked
              case Parsed(b, o) =>
                && !panicked
                && (attrs(b, o) == Exists ==> w.status == Some(200))
                && (attrs(b, o) == NotExist ==> w.status == Some(404))
                && (attrs(b, o) == OtherErr ==> w.status == Some(500))
  {
    if req.httpMethod != "POST" {
      w.WriteHeader(404);
      return false;
    }
    if req.body.ReadFailed? {
      return true;
    }
    var parsed := ParseBucketPath(req.body.gcsPath);
    if parsed.InvalidLocation? {
      w.WriteHeader(400);
      return false;
    }
    if parsed.IndexPanic? {
      return true;
    }
    var bucketName, objPath := parsed.bucket, parsed.objectPath;
    var err := attrs(bucketName, objPath);
    if err != Exists {
      if err == NotExist {
        w.WriteHeader(404);
        return false;
      }
      w.WriteHeader(500);
    }
    w.WriteHeader(200);
    panicked := false;
  }
}
