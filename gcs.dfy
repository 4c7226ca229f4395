/** How the gateway names objects in the blob store. */
module Gcs {

  /** The object name `{prefix}/{filename}` under which an upload is stored and signed. */
  function ObjectPath(prefix: string, filename: string): (p: string)
    ensures |p| == |prefix| + 1 + |filename|
    ensures prefix <= p && p[|prefix|] == '/' && p[|prefix| + 1..] == filename
  {
    prefix + "/" + filename
  }

  /** The blob-store URI `gs://{bucket}/{object}`. */
  function GcsUri(bucket: string, obj: string): (u: string)
    ensures "gs://" <= u && u[5..] == bucket + "/" + obj
  {
    "gs://" + bucket + "/" + obj
  }
}
