/** The push envelope of an upload notification and the test that decides whether the
    gateway acts on it. The body is not validated against a schema, so every level of
    the envelope may be absent. */
module EventFilter {
  import opened Wrappers
  import opened Gcs

  datatype Attributes = Attributes(
    bucketId: Option<string>,
    eventTime: Option<string>,
    eventType: Option<string>,
    objectId: Option<string>,
    objectGeneration: Option<int>,
    payloadFormat: Option<string>)

  datatype Message = Message(
    attributes: Option<Attributes>,
    data: Option<string>,
    messageId: Option<string>,
    publishTime: Option<string>)

  datatype Envelope = Envelope(message: Option<Message>, subscription: Option<string>)

  const ObjectFinalize: string := "OBJECT_FINALIZE"

  /** `message?.attributes` */
  function AttributesOf(e: Envelope): Option<Attributes> {
    match e.message
    case None => None
    case Some(m) => m.attributes
  }

  function BucketId(e: Envelope): Option<string> {
    match AttributesOf(e)
    case None => None
    case Some(a) => a.bucketId
  }

  function EventType(e: Envelope): Option<string> {
    match AttributesOf(e)
    case None => None
    case Some(a) => a.eventType
  }

  function ObjectId(e: Envelope): Option<string> {
    match AttributesOf(e)
    case None => None
    case Some(a) => a.objectId
  }

  /** A JavaScript template literal renders a missing value as `undefined`. */
  function Interpolate(v: Option<string>): string {
    v.GetOr("undefined")
  }

  /** The object location the job is created for: `gs://{bucketId}/{objectId}`, built from
      the attributes before any of them is checked. */
  function GcsLocation(e: Envelope): (loc: string)
    ensures AttributesOf(e).None? ==> loc == "gs://undefined/undefined"
    ensures BucketId(e).Some? && ObjectId(e).Some? ==>
              loc == "gs://" + BucketId(e).value + "/" + ObjectId(e).value
  {
    GcsUri(Interpolate(BucketId(e)), Interpolate(ObjectId(e)))
  }

  /** An event is acted on only if it is a finalize event, from the configured bucket, for
      an object whose name starts with the configured prefix, compared as raw strings. */
  predicate IsRelevant(bucket: string, prefix: string, e: Envelope)
    ensures IsRelevant(bucket, prefix, e) <==>
              && e.message.Some? && e.message.value.attributes.Some?
              && var a := e.message.value.attributes.value;
                 && a.eventType == Some(ObjectFinalize)
                 && a.bucketId == Some(bucket)
                 && a.objectId.Some? && prefix <= a.objectId.value
    ensures IsRelevant(bucket, prefix, e) ==>
              GcsLocation(e) == GcsUri(bucket, ObjectId(e).value) &&
              GcsUri(bucket, prefix) <= GcsLocation(e)
  {
    && EventType(e) == Some(ObjectFinalize)
    && BucketId(e) == Some(bucket)
    && ObjectId(e).Some?
    && prefix <= ObjectId(e).value
  }

  /** The prefix test is not a path-segment test: with prefix `upload`, the object
      `uploadX/f` is acted on. */
  lemma RawPrefixIsNotSegment(bucket: string)
    ensures IsRelevant(bucket, "upload", Envelope(Some(Message(Some(Attributes(
              Some(bucket), None, Some(ObjectFinalize), Some("uploadX/f"), None, None)),
              None, None, None)), None))
  {
    assert "upload" <= "uploadX/f";
  }
}
