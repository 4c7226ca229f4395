/** The signed-URL routes: where an upload goes, how long its grant lasts and which
    content type it is signed for. Signing is an outside capability, seen only through its
    outcome; so is the table that maps file names to MIME types. */
module SignedUrls {
  import opened Wrappers
  import opened Config
  import opened Gcs

  /** How long a grant stays valid: fifteen minutes, in milliseconds. */
  const GrantLifetimeMs: int := 15 * 60 * 1000

  const OctetStream: string := "application/octet-stream"

  datatype Action = Write | Resumable

  datatype SignOptions = SignOptions(version: string, action: Action, expires: int,
                                     contentType: Option<string>)

  /** What is asked of the signing capability: a grant on one object of one bucket. */
  datatype GrantRequest = GrantRequest(bucket: string, objectName: string, options: SignOptions)

  datatype SignOutcome = SignFailed | Signed(url: string)

  /** The request body both routes accept; a body without `filename` fails validation. */
  datatype UploadBody = UploadBody(filename: Option<string>, contentType: Option<string>)

  datatype ResponseBody =
    | NoBody
    | SignedUrlResponse(gcsPath: string, signedUrl: string, expectedContentType: string)
    | ResumableResponse(gcsPath: string, sessionUrl: string)

  datatype RouteReply = RouteReply(status: int, location: Option<string>, body: ResponseBody)

  /** A value that is present and not the empty string (JavaScript truthiness of a string). */
  predicate Truthy(v: Option<string>) {
    v.Some? && v.value != ""
  }

  /** The location reported to the client for `filename`. */
  function UploadLocation(cfg: Config, filename: string): (loc: string)
    ensures loc == "gs://" + cfg.bucketName + "/" + cfg.bucketPrefix + "/" + filename
  {
    GcsUri(cfg.bucketName, ObjectPath(cfg.bucketPrefix, filename))
  }

  /** The moment a grant issued at `now` (milliseconds) expires. */
  function ExpiresAt(now: int): (t: int)
    ensures t > now && t - now == 900000
  {
    now + GrantLifetimeMs
  }

  /** The content type an upload is expected to carry: the caller's, if given and not empty;
      otherwise the type looked up from the file name, if any; otherwise generic binary. */
  function ExpectedContentType(contentType: Option<string>, filename: string,
                               lookup: string -> Option<string>): (ct: string)
    ensures ct != ""
    ensures Truthy(contentType) ==> ct == contentType.value
    ensures !Truthy(contentType) && Truthy(lookup(filename)) ==> ct == lookup(filename).value
    ensures !Truthy(contentType) && !Truthy(lookup(filename)) ==> ct == OctetStream
  {
    if Truthy(contentType) then contentType.value
    else if Truthy(lookup(filename)) then lookup(filename).value
    else OctetStream
  }

  /** The grant request for `filename`: the object `{prefix}/{filename}` of the configured
      bucket, expiring fifteen minutes after `now`, typed only when a non-empty content
      type is given. */
  function GrantRequestFor(cfg: Config, filename: string, action: Action,
                           contentType: Option<string>, now: int): (g: GrantRequest)
    ensures g.bucket == cfg.bucketName && g.objectName == ObjectPath(cfg.bucketPrefix, filename)
    ensures g.options.action == action && g.options.expires - now == GrantLifetimeMs
    ensures g.options.contentType == if Truthy(contentType) then contentType else None
  {
    var options := SignOptions("v4", action, ExpiresAt(now),
                               if Truthy(contentType) then contentType else None);
    GrantRequest(cfg.bucketName, ObjectPath(cfg.bucketPrefix, filename), options)
  }

  /** `/uploadSignedUrl`: a write grant signed for the expected content type. */
  function UploadSignedUrl(cfg: Config, body: UploadBody, now: int,
                           lookup: string -> Option<string>,
                           signer: GrantRequest -> SignOutcome): (r: RouteReply)
    ensures body.filename.None? ==> r == RouteReply(400, None, NoBody)
    ensures body.filename.Some? ==>
              var f := body.filename.value;
              var ct := ExpectedContentType(body.contentType, f, lookup);
              var g := GrantRequestFor(cfg, f, Write, Some(ct), now);
              && g.options.contentType == Some(ct)
              && (signer(g).SignFailed? ==> r == RouteReply(500, None, NoBody))
              && (signer(g).Signed? ==>
                    r == RouteReply(201, Some(signer(g).url),
                                    SignedUrlResponse(UploadLocation(cfg, f), signer(g).url, ct)))
  {
    match body.filename
    case None => RouteReply(400, None, NoBody)
    case Some(f) =>
      var gcsLocation := UploadLocation(cfg, f);
      var ct := ExpectedContentType(body.contentType, f, lookup);
      match signer(GrantRequestFor(cfg, f, Write, Some(ct), now))
      case SignFailed => RouteReply(500, None, NoBody)
      case Signed(url) => RouteReply(201, Some(url), SignedUrlResponse(gcsLocation, url, ct))
  }

  /** `/uploadResumable`: a resumable grant, never typed, whatever content type is sent. */
  function UploadResumable(cfg: Config, body: UploadBody, now: int,
                           signer: GrantRequest -> SignOutcome): (r: RouteReply)
    ensures body.filename.None? ==> r == RouteReply(400, None, NoBody)
    ensures body.filename.Some? ==>
              var f := body.filename.value;
              var g := GrantRequestFor(cfg, f, Resumable, None, now);
              && g.options.contentType == None
              && (signer(g).SignFailed? ==> r == RouteReply(500, None, NoBody))
              && (signer(g).Signed? ==>
                    r == RouteReply(201, Some(signer(g).url),
                                    ResumableResponse(UploadLocation(cfg, f), signer(g).url)))
  {
    match body.filename
    case None => RouteReply(400, None, NoBody)
    case Some(f) =>
      var gcsLocation := UploadLocation(cfg, f);
      match signer(GrantRequestFor(cfg, f, Resumable, None, now))
      case SignFailed => RouteReply(500, None, NoBody)
      case Signed(url) => RouteReply(201, Some(url), ResumableResponse(gcsLocation, url))
  }
}
