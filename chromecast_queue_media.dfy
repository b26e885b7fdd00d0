/**
 * src/ChromecastQueueMedia.js: validates one queue item and fills in the
 * queue-specific defaults around a normalised ChromecastMedia.
 */
module ChromecastQueueMedia {
  import opened Wrappers
  import ChromecastMedia

  /** The object handed to the constructor. `media` is None when it is absent
      or falsy; the other fields are None when they are `undefined`. */
  datatype QueueMediaInput = QueueMediaInput(
    media: Option<ChromecastMedia.MediaInput>,
    autoplay: Option<bool>,
    preloadTime: Option<real>,
    startTime: Option<real>,
    playbackDuration: Option<real>)

  /** A constructed ChromecastQueueMedia. */
  datatype QueueMedia = QueueMedia(
    autoplay: bool,
    preloadTime: real,
    startTime: Option<real>,
    activeTrackIds: seq<int>,
    playbackDuration: Option<real>,
    media: ChromecastMedia.Media)

  const DefaultAutoplay: bool := true
  const DefaultPreloadTime: real := 3.0

  /** `new ChromecastQueueMedia(queueMedia)`. A missing `media` is rejected
      first; a media without metadata is then rejected by the inner
      ChromecastMedia constructor. Defaults are filled by presence, so an
      explicit `false` or `0` is kept. */
  function Construct(input: QueueMediaInput): (r: Result<QueueMedia, ChromecastMedia.Error>)
    ensures input.media.None? ==> r == Failure(ChromecastMedia.TypeError("Media must be defined"))
    ensures input.media.Some? && input.media.value.metadata.None? ==>
      r == Failure(ChromecastMedia.TypeError("metadata must be defined"))
    ensures r.Success? <==> input.media.Some? && input.media.value.metadata.Some?
    ensures r.Success? ==> Success(r.value.media) == ChromecastMedia.Construct(input.media.value)
    ensures r.Success? && input.autoplay.Some? ==> r.value.autoplay == input.autoplay.value
    ensures r.Success? && input.autoplay.None? ==> r.value.autoplay == DefaultAutoplay
    ensures r.Success? && input.preloadTime.Some? ==> r.value.preloadTime == input.preloadTime.value
    ensures r.Success? && input.preloadTime.None? ==> r.value.preloadTime == DefaultPreloadTime
    ensures r.Success? ==> r.value.startTime == input.startTime && r.value.playbackDuration == input.playbackDuration
    ensures r.Success? ==> r.value.activeTrackIds == []
  {
    if input.media.None? then
      Failure(ChromecastMedia.TypeError("Media must be defined"))
    else
      var autoplay := if input.autoplay.Some? then input.autoplay.value else DefaultAutoplay;
      var preloadTime := if input.preloadTime.Some? then input.preloadTime.value else DefaultPreloadTime;
      match ChromecastMedia.Construct(input.media.value)
      case Failure(e) => Failure(e)
      case Success(media) =>
        Success(QueueMedia(autoplay, preloadTime, input.startTime, [], input.playbackDuration, media))
  }

  /** A constructed ChromecastQueueMedia passed back in as the argument of
      the constructor. */
  function AsInput(q: QueueMedia): QueueMediaInput {
    QueueMediaInput(
      Some(ChromecastMedia.AsInput(q.media)),
      Some(q.autoplay),
      Some(q.preloadTime),
      q.startTime,
      q.playbackDuration)
  }

  /** Constructing twice gives the same queue item as constructing once. */
  lemma ConstructIdempotent(input: QueueMediaInput)
    requires Construct(input).Success?
    ensures Construct(AsInput(Construct(input).value)) == Construct(input)
  {
    ChromecastMedia.ConstructIdempotent(input.media.value);
  }

  /** A queue item with only the media given gets autoplay on, a preload time
      of 3 and no start time or duration. */
  lemma DefaultsOnly(media: ChromecastMedia.MediaInput)
    requires media.metadata.Some?
    ensures var r := Construct(QueueMediaInput(Some(media), None, None, None, None));
      r.Success? && r.value.autoplay && r.value.preloadTime == 3.0
      && r.value.startTime.None? && r.value.playbackDuration.None?
  {
  }
}
