/** Values shared by the uploader and the server: what an upload request carries. */
module Basics {
  datatype Option<+T> = None | Some(value: T)

  /** The metadata of one call. An absent text field is the empty string, as in the JSON form.
      Times and durations are milliseconds. */
  datatype CallMeta = CallMeta(
    sourceId: string, start: int, duration: int, receiver: string, system: string, site: string,
    talkgroup: string, radio: string, voice: string, callType: string, details: string)

  datatype UploadRequest = UploadRequest(sender: string, key: string, format: string, call: CallMeta)

  /** Scaling by a positive number keeps the order of reals. */
  lemma ScaleOrder(x: real, y: real, c: real)
    requires c > 0.0
    ensures x * c < y * c <==> x < y
  {
    if x < y { assert (y - x) * c > 0.0; }
    if x >= y { assert (x - y) * c >= 0.0; }
  }
}
