/** How the two services fit together: every location the gateway hands out or queues is
    parsed by the task handler back into the bucket and object it was built from. */
module EndToEnd {
  import opened Wrappers
  import opened Config
  import opened Gcs
  import opened Authenticator
  import opened EventFilter
  import opened Dispatcher
  import opened Gateway
  import opened SignedUrls
  import opened TaskHandler

  /** The location queued for a relevant notification parses to the configured bucket and
      the notified object. */
  lemma NotificationPathRoundTrip(bucket: string, prefix: string, e: Envelope)
    requires '/' !in bucket && IsRelevant(bucket, prefix, e)
    ensures ParseBucketPath(GcsLocation(e)) == Parsed(bucket, ObjectId(e).value)
  {
    ParseBuiltPath(bucket, ObjectId(e).value);
  }

  /** The location returned by a signed-URL route names exactly the object the grant was
      signed for. */
  lemma UploadPathRoundTrip(cfg: Config, filename: string, action: Action,
                            contentType: Option<string>, now: int)
    requires '/' !in cfg.bucketName
    ensures ParseBucketPath(UploadLocation(cfg, filename)) ==
            Parsed(cfg.bucketName, GrantRequestFor(cfg, filename, action, contentType, now).objectName)
  {
    ParseBuiltPath(cfg.bucketName, ObjectPath(cfg.bucketPrefix, filename));
  }

  /** A location that starts with `gs://{bucket}/{prefix}` parses to that bucket and an
      object under that prefix. */
  lemma UnderPrefixParses(bucket: string, prefix: string, path: string)
    requires '/' !in bucket && GcsUri(bucket, prefix) <= path
    ensures ParseBucketPath(path).Parsed?
    ensures ParseBucketPath(path).bucket == bucket && prefix <= ParseBucketPath(path).objectPath
  {
    var n := |"gs://" + bucket + "/"|;
    var o := path[n..];
    assert path == GcsUri(bucket, o);
    ParseBuiltPath(bucket, o);
    assert prefix == GcsUri(bucket, prefix)[n..];
  }

  /** Every task the gateway has queued sends the handler to an object of the configured
      bucket under the configured prefix. */
  lemma QueuedTasksTargetConfiguredPrefix(g: Gateway)
    requires g.Valid() && '/' !in g.cfg.bucketName
    ensures forall i :: 0 <= i < |g.submitted| ==>
              var p := ParseBucketPath(g.submitted[i].httpRequest.body.value.gcsPath);
              p.Parsed? && p.bucket == g.cfg.bucketName && g.cfg.bucketPrefix <= p.objectPath
  {
    forall i | 0 <= i < |g.submitted|
      ensures var p := ParseBucketPath(g.submitted[i].httpRequest.body.value.gcsPath);
              p.Parsed? && p.bucket == g.cfg.bucketName && g.cfg.bucketPrefix <= p.objectPath
    {
      assert Gateway.Queued(g.cfg, g.nextJob, g.submitted[i]);
      UnderPrefixParses(g.cfg.bucketName, g.cfg.bucketPrefix,
                        g.submitted[i].httpRequest.body.value.gcsPath);
    }
  }
}
