/**
 * src/ChromecastMedia.js: validates a media description and normalises it
 * into the payload the default media receiver expects.
 */
module ChromecastMedia {
  import opened Wrappers

  /** A scalar field value of a plain JavaScript object. */
  datatype Value = Text(text: string) | Number(number: real) | Flag(flag: bool)

  /** The `metadata` object handed in: its title, and every other field. */
  datatype MetadataInput = MetadataInput(title: Option<string>, others: map<string, Value>)

  /** The object handed to the constructor. `metadata` is None when it is
      absent or falsy; `others` holds the fields the constructor never reads
      (a `streamType` among them). */
  datatype MediaInput = MediaInput(
    contentId: Option<string>,
    contentType: Option<string>,
    metadata: Option<MetadataInput>,
    others: map<string, Value>)

  datatype Metadata = Metadata(title: Option<string>, metadataType: int)

  /** A constructed ChromecastMedia. */
  datatype Media = Media(
    contentId: Option<string>,
    contentType: Option<string>,
    streamType: string,
    metadata: Metadata)

  /** A `TypeError` thrown by a constructor, with its message. */
  datatype Error = TypeError(message: string)

  const Buffered: string := "BUFFERED"
  const FixedMetadataType: int := 4

  /** The fields every constructed ChromecastMedia fixes. */
  predicate IsNormalised(m: Media) {
    m.streamType == Buffered && m.metadata.metadataType == FixedMetadataType
  }

  /** `new ChromecastMedia(media)`: rejects a missing `metadata`; otherwise
      copies the content fields and the title and fixes the rest. */
  function Construct(input: MediaInput): (r: Result<Media, Error>)
    ensures r.Failure? <==> input.metadata.None?
    ensures r.Failure? ==> r.error == TypeError("metadata must be defined")
    ensures r.Success? ==> IsNormalised(r.value)
    ensures r.Success? ==> r.value.contentId == input.contentId && r.value.contentType == input.contentType
    ensures r.Success? ==> r.value.metadata.title == input.metadata.value.title
  {
    if input.metadata.None? then
      Failure(TypeError("metadata must be defined"))
    else
      Success(Media(
        input.contentId,
        input.contentType,
        Buffered,
        Metadata(input.metadata.value.title, FixedMetadataType)))
  }

  /** A constructed ChromecastMedia passed back in as the argument of the
      constructor: the same object read as a plain input. */
  function AsInput(m: Media): (input: MediaInput)
    ensures input.metadata.Some?
  {
    MediaInput(
      m.contentId,
      m.contentType,
      Some(MetadataInput(m.metadata.title, map["metadataType" := Number(m.metadata.metadataType as real)])),
      map["streamType" := Text(m.streamType)])
  }

  /** Only the title of the metadata and the two content fields matter:
      every other field of the input is dropped. */
  lemma OtherFieldsDropped(input: MediaInput, others: map<string, Value>, metadataOthers: map<string, Value>)
    requires input.metadata.Some?
    ensures Construct(input.(others := others, metadata := Some(input.metadata.value.(others := metadataOthers))))
         == Construct(input)
  {
  }

  /** A normalised descriptor is a fixed point of the constructor. */
  lemma NormalisedIsFixedPoint(m: Media)
    requires IsNormalised(m)
    ensures Construct(AsInput(m)) == Success(m)
  {
  }

  /** Constructing twice gives the same descriptor as constructing once. */
  lemma ConstructIdempotent(input: MediaInput)
    requires Construct(input).Success?
    ensures Construct(AsInput(Construct(input).value)) == Construct(input)
  {
    NormalisedIsFixedPoint(Construct(input).value);
  }
}
