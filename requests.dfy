/**
 * What a send submits to the generative model: a single text transcript when there
 * is no image, or a list of contents (instruction, message, image) when there is one.
 */
module Requests {

  import opened Records
  import opened Wrappers
  import opened Transcript
  import opened ImagePayload

  /** One element of a multimodal request. The image is carried as its base64 text;
      decoding it and opening it as a picture belong to the provider step. */
  datatype Part = TextPart(text: string) | ImagePart(base64: string)

  datatype Request = TextRequest(prompt: string) | ContentRequest(parts: seq<Part>)

  /** Python truthiness of the optional image field: absent and "" both mean no image. */
  predicate HasImage(image: Option<string>) {
    image.Some? && image.value != ""
  }

  /** The instruction as a leading content part, present only when non-empty. */
  function InstructionParts(instruction: string): seq<Part> {
    if instruction != "" then [TextPart(instruction)] else []
  }

  /**
   * The request a send submits, or None when the image field has no comma (the
   * IndexError of `split(',')[1]`, raised before any call to the model).
   */
  function RequestFor(instruction: string, history: seq<Turn>, msg: string, image: Option<string>): (r: Option<Request>)
    ensures r.None? <==> HasImage(image) && Comma !in image.value
    ensures !HasImage(image) ==> r == Some(TextRequest(TranscriptOf(instruction, history, msg)))
    // the image branch sends the instruction, the message and the image, and nothing
    // from the history
    ensures r.Some? && HasImage(image) ==>
      r.value.ContentRequest? &&
      |r.value.parts| == (if instruction != "" then 3 else 2) &&
      r.value.parts[|r.value.parts| - 2] == TextPart(msg) &&
      r.value.parts[|r.value.parts| - 1] == ImagePart(Payload(image.value).value) &&
      (forall i :: 0 <= i < |r.value.parts| - 2 ==> r.value.parts[i] == TextPart(instruction))
  {
    if HasImage(image) then
      match Payload(image.value)
      case None => None
      case Some(b64) => Some(ContentRequest(InstructionParts(instruction) + [TextPart(msg), ImagePart(b64)]))
    else
      Some(TextRequest(TranscriptOf(instruction, history, msg)))
  }

  /** A request with an image does not depend on the history at all. */
  lemma ImageRequestIgnoresHistory(instruction: string, h1: seq<Turn>, h2: seq<Turn>, msg: string, image: Option<string>)
    requires HasImage(image)
    ensures RequestFor(instruction, h1, msg, image) == RequestFor(instruction, h2, msg, image)
  {
  }
}
