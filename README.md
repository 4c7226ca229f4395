# Upload-orchestration gateway: a Dafny model

The system hands out time-limited signed URLs so that clients can upload files straight
to a Cloud Storage bucket. The bucket then sends a Pub/Sub push notification when an upload
is finalized. The gateway (`taskapi`, TypeScript on Fastify) authenticates that push,
ignores events it does not care about, and submits exactly one Cloud Tasks task per
relevant event. The task queue then calls the task handler (`taskhandler`, Go). The handler
parses the task's `gs://bucket/object` location and answers 200, 404, 400 or 500,
depending on whether the object exists.

The model covers the decision logic of both services:

- `Authenticator` covers the `Authorization: Bearer <token>` extraction, with the
  unanchored `/Bearer (.*)/` search, and the claim checks made on the verifier's outcome.
- `EventFilter` covers the push envelope, the relevance test and the `gs://` location built
  from the event.
- `Dispatcher` covers the shape of the Cloud Tasks request and how the queue's answer is
  read.
- `Gateway` holds a `Gateway` class with the read-only configuration, a job-id source and a
  ghost log of every task request submitted to the queue. It also holds a `Reply` class
  whose first send wins, so the two double-send paths answer what the caller actually sees.
  - `HandleNotification` runs the authentication pre-handler and then the route handler.
  - A rejected request stops with 401 before the filter runs.
  - An irrelevant event is acknowledged with 200 and leaves the log unchanged.
  - A relevant event appends exactly one well-formed request to the log.
- `SignedUrls` covers the object path, the `gs://` location, the 15-minute expiry, the
  content-type fallback chain, and the two signed-URL routes.
- `TaskHandler` covers the Go side: `parseBucketPath`, and `Handler` as a method over a
  response writer whose first `WriteHeader` wins.
- `EndToEnd` holds the cross-component round trips. For a bucket name with no `/` (Cloud
  Storage bucket names never contain one), every location the gateway returns or queues
  parses in the handler back to the bucket and object it was built from.

Outside capabilities are parameters:

- ID-token verification: `string -> VerifyOutcome`.
- Task creation: `TaskRequest -> CreateOutcome`.
- URL signing: `GrantRequest -> SignOutcome`.
- The MIME table: `string -> Option<string>`.
- The storage attribute lookup: `(string, string) -> AttrsOutcome`.
- The clock: `now`, in milliseconds.

The random job id (`uuidv4`) is a counter, `nextJob`, which makes the ids unique.

The model follows the code as written, including where it is easy to misread:

- A verifier failure sends 401 and then falls through to the missing-claims check, which
  sends 401 again. The first send stands.
- A task-creation failure sends 500 and then falls through to `status(201).send()`. The
  caller sees 500.
- A missing `email_verified` or `email` claim is rejected, just as a false or different one
  is.
- The token is verified with no expected audience (`verifyIdToken` is given the token
  alone), so a token from the expected notifier identity that was issued for any audience
  passes. The verifier parameter takes only the token for this reason.
- The prefix test is a raw string prefix (`upload` accepts `uploadX/f`), not a path-segment
  test.
- A request body that is absent entirely makes the first attribute access throw, and the
  framework answers 500.
- The `/uploadNotification` body is not schema-validated, so every level of the envelope
  may be missing. A missing `eventType`, `bucketId` or `objectId` gives 200.
- An empty `contentType` counts as absent in the content-type chain, and so does an empty
  lookup result.
- The resumable route never signs a content type.
- In the handler, a non-existence error gives 404. Any other lookup error writes 500 and
  falls through to a write of 200, which is ignored.
- A `gs://` location with no `/` after the bucket makes `parseBucketPath` index past the end
  of its split and panic. This is modelled as the explicit `IndexPanic` result and a
  `panicked` outcome of `Handler`.

## Model

| member | source | states |
|---|---|---|
| `Strings.Find` | taskapi/src/index.ts:184 | the result is the leftmost index where the pattern occurs, or None exactly when it occurs nowhere (the unanchored regex search; also the first `/` of Go's `SplitN`) |
| `Gcs.ObjectPath` | taskapi/src/index.ts:168 | the object name is the prefix, then `/`, then the file name, which can be read back from it |
| `Gcs.GcsUri` | taskapi/src/index.ts:388 | the location starts with `gs://` and continues with bucket, `/`, object |
| `Config.EnvOr` | taskapi/src/index.ts:13-24 | an environment value is used only when it is set and non-empty; otherwise the default is used |
| `Config.FromEnv` | taskapi/src/index.ts:13-24 | each of the eight settings is its variable's value when that is set and non-empty, and its default otherwise; the object prefix is never empty and is `upload` when `BUCKET_PREFIX` is unset or empty |
| `Authenticator.RestOfLine` | taskapi/src/index.ts:184 | what `(.*)` captures is the longest prefix of the rest of the header that has no line terminator |
| `Authenticator.ExtractToken` | taskapi/src/index.ts:183-188 | a missing header gives no token; a header without `Bearer ` gives no token; when the leftmost `Bearer ` is at `i`, the token is the whole rest of that line after it, or none when that is empty; a token is non-empty and has no line break |
| `Authenticator.BearerHeaderToken` | taskapi/src/index.ts:184-188 | `Bearer t` yields exactly `t` for every non-empty single-line `t` |
| `Authenticator.LeftmostBearerWins` | taskapi/src/index.ts:184 | for any text `p` before the first `Bearer ` and any non-empty single-line `t`, the header `p Bearer t` yields exactly `t`, a later `Bearer ` in `t` included |
| `Authenticator.CheckClaims` | taskapi/src/index.ts:197-228 | the claims pass if and only if the verifier accepted the token, returned a payload, `email_verified` is true and `email` equals the expected notifier; a verifier failure, a missing payload or an unverified email is rejected |
| `Authenticator.Authenticate` | taskapi/src/index.ts:183-228 | no token means a `MissingToken` rejection; authentication succeeds if and only if a token exists and its verified claims pass |
| `Authenticator.MissingHeaderRejected` | taskapi/src/index.ts:183-188 | a request with no `Authorization` header is rejected whatever the verifier would say |
| `EventFilter.GcsLocation` | taskapi/src/index.ts:388 | the location is `gs://bucketId/objectId` when both are present, and `gs://undefined/undefined` when the envelope has no attributes |
| `EventFilter.IsRelevant` | taskapi/src/index.ts:391-407 | an event is acted on if and only if the envelope has a message with attributes, and it is `OBJECT_FINALIZE`, comes from the configured bucket and has an object id that starts with the prefix; then the location is `gs://bucket/objectId` and starts with `gs://bucket/prefix` |
| `EventFilter.RawPrefixIsNotSegment` | taskapi/src/index.ts:403 | with prefix `upload`, the object `uploadX/f` is relevant |
| `Dispatcher.EmptyRequest` | taskapi/src/index.ts:120-134 | the request as first built has no body and is not yet submittable; filling its body with any payload makes it a well-formed JSON POST on the configured queue carrying that payload |
| `Dispatcher.ReadOutcome` | taskapi/src/index.ts:143-152 | a task is created if and only if the queue resolved with a task name, and the result is that name; a rejection or a missing name is a failure |
| `Gateway.Reply.Send` | taskapi/src/index.ts:417-429 | the first status sent is kept, and later sends change nothing |
| `Gateway.Gateway.constructor` | taskapi/src/index.ts:13-30 | a new gateway has the given configuration, an empty task log and job ids starting at 0, and it satisfies its invariant |
| `Gateway.Gateway.LogExtended` | taskapi/src/index.ts:409-420 | logging one well-formed request for the job just handed out, under the configured prefix, keeps every logged request valid and job ids increasing |
| `Gateway.Gateway.ValidateIdToken` | taskapi/src/index.ts:178-232 | the pre-handler replies 401 exactly when authentication fails and sends nothing otherwise |
| `Gateway.Gateway.CreateHttpTaskWithToken` | taskapi/src/index.ts:110-153 | exactly one request is appended to the log, and nothing else in the log changes; the request is a JSON POST on the configured queue to the handler URL, under the task identity, with the payload as body; the result is the queue's answer read by `ReadOutcome` |
| `Gateway.Gateway.RouteNotification` | taskapi/src/index.ts:384-430 | a missing body gives 500; an irrelevant event gives 200 and leaves the log and the job counter unchanged; a relevant event takes one fresh job id, appends exactly one request carrying `{jobId, gs://bucketId/objectId}`, and gives 201 or, when the queue fails, 500; the invariant is kept |
| `Gateway.Gateway.HandleNotification` | taskapi/src/index.ts:377-431 | a rejected request gives 401 and queues nothing; otherwise the result is as in `RouteNotification`; job ids stay unique and increasing, and every logged request is well formed and targets the configured bucket and prefix |
| `SignedUrls.UploadLocation` | taskapi/src/index.ts:305 | the location reported for `filename` is `gs://bucket/prefix/filename` |
| `SignedUrls.ExpiresAt` | taskapi/src/index.ts:161 | a grant expires exactly 900000 ms after it is issued |
| `SignedUrls.ExpectedContentType` | taskapi/src/index.ts:306 | the content type is never empty; it is the caller's type if that is non-empty, else the lookup's type if that is non-empty, else `application/octet-stream` |
| `SignedUrls.GrantRequestFor` | taskapi/src/index.ts:155-168 | the grant is for `prefix/filename` in the configured bucket, with the requested action, an expiry of now + 15 min, and a content type only if a non-empty one was given |
| `SignedUrls.UploadSignedUrl` | taskapi/src/index.ts:294-325 | a missing filename gives 400; a signing failure gives 500; otherwise 201, `Location` is the URL, and the body is the `gs://bucket/prefix/filename` location, the URL and the expected type, which the write grant is always signed for |
| `SignedUrls.UploadResumable` | taskapi/src/index.ts:344-374 | a missing filename gives 400; the resumable grant is never typed; a signing failure gives 500; otherwise 201 with `Location` and the session URL |
| `TaskHandler.ParseBucketPath` | taskhandler/cmd/handler/main.go:51-62 | a string without the `gs://` prefix is an error; a `gs://` string with no further `/` panics; otherwise the string is `gs://bucket/object` with a bucket that has no `/` |
| `TaskHandler.ParseBuiltPath` | taskhandler/cmd/handler/main.go:56-61 | `gs://b/o` with no `/` in `b` parses back to exactly `(b, o)`, even when `o` contains `/` |
| `TaskHandler.NoObjectPanics` | taskhandler/cmd/handler/main.go:57-59 | `gs://` followed by any bucket name without `/` makes the parser panic |
| `TaskHandler.ResponseWriter.WriteHeader` | taskhandler/cmd/handler/main.go:106-111 | the first status written is kept, and later writes change nothing |
| `TaskHandler.Handler` | taskhandler/cmd/handler/main.go:64-116 | a method other than POST gives 404; an unreadable body or a location with no object part panics with nothing written; an unparsable location, including the empty one an undecodable body leaves, gives 400; otherwise a missing object gives 404, another lookup error gives 500, and an existing object gives 200 |
| `EndToEnd.NotificationPathRoundTrip` | taskapi/src/index.ts:388 | for a bucket name with no `/`, and a relevant event, the queued location parses in the handler to the configured bucket and the notified object |
| `EndToEnd.UploadPathRoundTrip` | taskapi/src/index.ts:305 | for a bucket name with no `/`, the location a signed-URL route returns parses to the bucket and exactly the object the grant was signed for |
| `EndToEnd.UnderPrefixParses` | taskapi/src/index.ts:403 | for a bucket name with no `/`, any location that starts with `gs://bucket/prefix` parses to that bucket and an object under that prefix |
| `EndToEnd.QueuedTasksTargetConfiguredPrefix` | taskapi/src/index.ts:409-420 | for a configured bucket name with no `/`, every task the gateway has ever queued sends the handler to an object in the configured bucket under the configured prefix |

## Left out

- The `/ping` route, server start-up (`listen`) and plugin registration are not modelled.
  They hold no decision logic.
- The multipart `/upload` route is left out: its stream piping and its reply lifecycle.
  Only its location derivation is modelled, which it shares with the signed-URL routes
  (`SignedUrls.UploadLocation`).
- Logging is not modelled.
- `JSON.stringify`, base64 and `json.Unmarshal` are not modelled. A task body is the payload
  value itself. The handler's request is its decoded `gcsPath`, which is empty when decoding
  fails.
- The response object built at taskapi/src/index.ts:422-426 is never sent, so it is not
  modelled. The error detail in the 500 body is not modelled either; replies are statuses,
  plus the JSON bodies of the signed-URL routes.
- Token signature, issuer and expiry checks, URL signing, Cloud Tasks, the GCS attribute
  lookup and the MIME table are outside capabilities. Each is a function-typed parameter.
  `Date.now` is the parameter `now`.
- `uuidv4` is modelled by the counter `nextJob`. Randomness is not modelled; uniqueness is.
- Non-string attribute values in an unvalidated push body are not modelled. For example, a
  numeric `objectId` makes `startsWith` throw. Attribute values are `Option<string>`.
- Fastify parses the request body before the pre-handler runs, so a malformed JSON body
  (400), an unsupported content type (415) or an oversized body (413) on
  `/uploadNotification` is answered before the token is looked at. The body is
  `Option<Envelope>`, which holds only bodies that parse, so
  `Gateway.Gateway.HandleNotification`'s 401 promise covers only those requests.
- Fastify's schema coercion for the upload body is not modelled. Only a missing `filename`
  is modelled, as 400.
- The `catch` at taskapi/src/index.ts:229-231 is not modelled. Nothing inside its `try`
  throws synchronously, and the awaited verifier failure is caught separately.
- The `bucket == nil` check at taskhandler/cmd/handler/main.go:87-92 is not modelled,
  because the storage client's `Bucket` never returns nil.
- The panic at taskhandler/cmd/handler/main.go:69 is modelled only as `panicked`. So is the
  one at :59. What the HTTP server does with a panic (closing the connection) is outside the
  model.
- `BUCKET_NAME` is never checked by the gateway. The round trips in `EndToEnd` assume it
  holds no `/`, as every Cloud Storage bucket name does. With a name such as `a/b`, the
  location `gs://a/b/upload/f` would parse in the handler as bucket `a` and object
  `b/upload/f`.
- Requests are modelled one at a time. Concurrency between requests is not modelled; the
  only shared state is the read-only configuration.
- No deduplication is modelled, and none exists. A redelivered event gets a new job.
