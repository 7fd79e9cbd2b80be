/**
 * The payload classifier of the chat component: a received payload is an audio clip,
 * an image or plain text according to the data-URI marker it starts with.
 */
module Payload {

  /** The `type` field of a message record ("text", "image" or "audio"). */
  datatype Kind = Text | Image | Audio

  const AudioMarker: string := "data:audio"
  const ImageMarker: string := "data:image"

  /** JavaScript's `s.startsWith(prefix)`, compared character by character. */
  function StartsWith(s: string, prefix: string): (r: bool)
    ensures r <==> |prefix| <= |s| && s[..|prefix|] == prefix
  {
    if prefix == [] then true
    else if s == [] then false
    else s[0] == prefix[0] && StartsWith(s[1..], prefix[1..])
  }

  /** No payload carries both markers: they differ at their sixth character. */
  lemma MarkersExclusive(payload: string)
    ensures !(StartsWith(payload, AudioMarker) && StartsWith(payload, ImageMarker))
  {
  }

  /**
   * The nested conditional that picks a record's `type`: the audio marker is tested
   * first, then the image marker, and every other payload is text.
   */
  function Classify(payload: string): (k: Kind)
    ensures k == Audio <==> StartsWith(payload, AudioMarker)
    ensures k == Image <==> StartsWith(payload, ImageMarker)
    ensures k == Text <==> !StartsWith(payload, AudioMarker) && !StartsWith(payload, ImageMarker)
  {
    MarkersExclusive(payload);
    if StartsWith(payload, AudioMarker) then Audio
    else if StartsWith(payload, ImageMarker) then Image
    else Text
  }

  /** Both markers are ten characters long. */
  const MarkerLength: nat := 10

  /** The kind depends on the first ten characters of the payload and nothing else. */
  lemma ClassifyByPrefix(p: string, q: string)
    requires |p| >= MarkerLength && |q| >= MarkerLength
    requires p[..MarkerLength] == q[..MarkerLength]
    ensures Classify(p) == Classify(q)
  {
  }

  /** Appending anything to a payload of ten or more characters keeps its kind. */
  lemma ClassifyIgnoresSuffix(p: string, suffix: string)
    requires |p| >= MarkerLength
    ensures Classify(p + suffix) == Classify(p)
  {
  }

  /** A data URI of either media type gets that media type's kind, whatever follows the marker. */
  lemma ClassifyDataUri(rest: string)
    ensures Classify(AudioMarker + rest) == Audio
    ensures Classify(ImageMarker + rest) == Image
  {
  }

  /** A payload shorter than either marker is always text. */
  lemma ShortPayloadIsText(p: string)
    requires |p| < MarkerLength
    ensures Classify(p) == Text
  {
  }
}
