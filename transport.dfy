/**
 * The castv2-client library as Chromecast.js sees it: a Client with
 * connection, session and volume primitives, and the DefaultMediaReceiver
 * player it launches or joins. Nothing of the protocol is modelled: every
 * call is recorded, and its callback's outcome is an input.
 */
module Transport {
  import opened Wrappers
  import ChromecastMedia
  import ChromecastQueueMedia

  /** A DefaultMediaReceiver player handle, known only by its identity. */
  datatype Player = Player(id: nat)

  /** A running receiver application, as `client.getSessions` lists it. */
  datatype Session = Session(sessionId: string, displayName: string)

  /** A status or volume reply, passed through to the caller untouched. */
  datatype Status = Status(payload: string)

  /** The argument of `client.setVolume`. */
  datatype Volume = Volume(level: Option<real>, muted: Option<bool>)

  /** The callback's `(err, value)`: a value, or an error. */
  datatype Outcome<T> = Done(value: T) | Failed

  /** The options `player.queueLoad` is sent. */
  datatype QueueLoadOptions = QueueLoadOptions(startIndex: int, repeatMode: string)

  /** A command sent to a player. */
  datatype PlayerCommand =
    | LoadMedia(media: ChromecastMedia.Media, autoplay: bool)
    | QueueLoad(items: seq<ChromecastQueueMedia.QueueMedia>, options: QueueLoadOptions)
    | QueueInsert(items: seq<ChromecastQueueMedia.QueueMedia>)
    | QueueReorder(itemIds: seq<int>)
    | QueueRemove(itemIds: seq<int>, currentItemId: int)
    | PlayMedia
    | PauseMedia
    | SeekTo(seconds: real)
    | MuteMedia
    | UnmuteMedia
    | GetPlayerStatus

  /** A call made on the library. */
  datatype Call =
    | Connect(host: string)
    | GetSessions
    | Join(session: Session)
    | LaunchReceiver
    | GetClientStatus
    | SetVolume(volume: Volume)
    | CloseClient
    | Send(player: Player, command: PlayerCommand)
}
