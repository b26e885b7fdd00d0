# chromecast — a Dafny model

The repository is a promise wrapper around the `castv2-client` library for
controlling a Chromecast. This project models its own logic:

- **`ChromecastFacade`** (`chromecast.dfy`, src/Chromecast.js). A class
  `Chromecast` with the fields `connected`, `closing` and the optional `player`, and one method
  per operation of the JavaScript class other than `getSessions` and `join`,
  whose calls `JoinIfSessionExists` records directly:
  - the constructor's connect-then-rejoin chain;
  - the `close` event handler;
  - `close`, `connect`, `reconnect` and `joinIfSessionExists`;
  - `launch`;
  - the commands that launch first (`load`, `queueLoad`, `queueInsert`,
    `queueReorder`, `queueRemove`);
  - the commands that need a bound player (`play`, `pause`, `seek`,
    `mutePlayer`, `unmutePlayer`, `getPlayerStatus`);
  - the commands that need neither (`getClientStatus`, `setVolume`, `mute`,
    `unmute`).

  Every call the class makes on the library is appended to a ghost log
  `sent`. The callback outcome of each call is a method parameter.

  A pure state machine (`State`, `Step`, `Run`) states what each event does
  to the three fields. The methods' contracts are written against it, and
  lemmas over arbitrary event sequences state the lifecycle properties.
  The method `LoadThenPlay` is a worked example of a caller composing the
  contracts: after `load` launches and binds a player, `play` goes to that
  same player without a second launch.
- **`Transport`** (`transport.dfy`). The library as the class sees it:
  - player handles and sessions;
  - status and volume replies;
  - the success or failure of each callback (`Outcome`);
  - the calls themselves (`Call`, `PlayerCommand`).
- **`ErrorCodes`** (`error_code.dfy`, src/ErrorCode.js). The module counter
  as a `Registry` class whose `NewErrorCode` pre-increments it. The 15
  exported reasons are a declaration table, evaluated in order by
  `LoadExports`, and `is` compares by code.
- **`ChromecastMedia`** and **`ChromecastQueueMedia`**
  (`chromecast_media.dfy`, `chromecast_queue_media.dfy`). The two descriptor
  constructors, each a function from an input record with optional fields to
  a `Result` that is either the normalised descriptor or a `TypeError`.
- **`Wrappers`** (`wrappers.dfy`). `Option` and `Result`.

Dafny types stand in for the JavaScript values as follows:
- `metadata`, `media` and `repeat` are `None` when absent or falsy; every other optional field is `None` exactly when it is `undefined`.
- Times are `real`.
- Media titles, ids and content types are strings.

Three behaviours of the code may be unexpected; the model follows the code:
- The close handler keeps the bound player. It is not discarded when the
  connection drops.
- `joinIfSessionExists` rejects when no default-receiver session exists.
  It does not resolve with "no session". The constructor swallows that
  rejection.
- Nothing ever sets `connected` back to true after the constructor.

## Model

| member | source | states |
|---|---|---|
| ErrorCodes.Registry.constructor | src/ErrorCode.js:1 | the counter starts at 0 |
| ErrorCodes.Registry.NewErrorCode | src/ErrorCode.js:4-7 | the counter advances by one, and the new object's code is the advanced counter; the message is stored unchanged |
| ErrorCodes.LoadExports | src/ErrorCode.js:14-30 | evaluating the 15 initialisers in order against a fresh counter yields exactly the table where entry i has code i + 1 and its declared message |
| ErrorCodes.ExportTable | src/ErrorCode.js:14-30 | the exported values: entry i has code i + 1 and the i-th declared message; LoadExports is proved to build it, and CodesFollowDeclarationOrder states it per reason |
| ErrorCodes.IsExported | src/ErrorCode.js:15-29 | the reason is one of the exported names |
| ErrorCodes.Position | src/ErrorCode.js:15-29 | the position of an exported reason in the table, at which that reason is declared |
| ErrorCodes.Exported | src/ErrorCode.js:14-30 | the `ErrorCode.X` lookup: the table entry of a declared reason, None for an undeclared one; its partners are CodesFollowDeclarationOrder and StatusReasonsMissing |
| ErrorCodes.NamesDistinct | src/ErrorCode.js:15-29 | no two entries of the table export the same reason |
| ErrorCodes.PositionOfDeclared | src/ErrorCode.js:15-29 | the i-th declared reason is found at position i |
| ErrorCodes.CodesFollowDeclarationOrder | src/ErrorCode.js:15-29 | the i-th declared reason is exported with code i + 1 and its own message |
| ErrorCodes.CodeBounds | src/ErrorCode.js:15-29 | NOTHING_IS_PLAYING has code 1, COULD_NOT_QUEUE_REORDER has code 15, and every exported code lies in 1..15 |
| ErrorCodes.CodesIncrease | src/ErrorCode.js:15-29 | codes, taken from the counter at line 5, strictly increase with declaration order |
| ErrorCodes.CodesDistinct | src/ErrorCode.js:15-29 | distinct exported reasons have distinct codes |
| ErrorCodes.ErrorCode.Is | src/ErrorCode.js:9-11 | `is(c)` holds exactly when c equals the object's code; the message plays no part |
| ErrorCodes.IsIdentifiesReason | src/ErrorCode.js:9-11 | for exported a and b, `a.is(b.code)` holds iff a and b are the same reason |
| ErrorCodes.StatusReasonsMissing | src/Chromecast.js:125-141 | exactly COULD_NOT_GET_CLIENT_STATUS and COULD_NOT_GET_PLAYER_STATUS have no exported entry |
| ChromecastMedia.Construct | src/ChromecastMedia.js:2-15 | rejects with TypeError "metadata must be defined" iff metadata is absent; on success it copies contentId, contentType and title, and fixes streamType "BUFFERED" and metadataType 4 |
| ChromecastMedia.OtherFieldsDropped | src/ChromecastMedia.js:8-14 | no input field other than contentId, contentType and metadata.title affects the result |
| ChromecastMedia.NormalisedIsFixedPoint | src/ChromecastMedia.js:4-14 | a descriptor with the fixed fields, passed back in, is rebuilt unchanged |
| ChromecastMedia.ConstructIdempotent | src/ChromecastMedia.js:4-14 | constructing from a constructed descriptor gives the same descriptor |
| ChromecastQueueMedia.Construct | src/ChromecastQueueMedia.js:5-17 | a missing media rejects with "Media must be defined", a missing inner metadata with "metadata must be defined", and success holds iff both are present; autoplay and preloadTime take the given value when present, else true and 3; startTime and playbackDuration are copied; activeTrackIds is empty; the media is the ChromecastMedia normalisation of the input's |
| ChromecastQueueMedia.ConstructIdempotent | src/ChromecastQueueMedia.js:5-17 | constructing from a constructed queue item gives the same item |
| ChromecastQueueMedia.DefaultsOnly | src/ChromecastQueueMedia.js:11-15 | given only a media, the item autoplays, has preload time 3, and has no start time or duration |
| ChromecastFacade.FindDefault | src/Chromecast.js:66 | the index of the first session named "Default Media Receiver"; None iff there is none |
| ChromecastFacade.Rejoin | src/Chromecast.js:64-75 | per cause: rejects with SessionsUnavailable iff listing fails, and with NoExistingSession iff no session has the default name; resolves iff listing and joining succeed and such a session exists, and then with the joined player |
| ChromecastFacade.RejoinCalls | src/Chromecast.js:64-75 | the sessions are always listed first; a join follows iff the listing succeeded and holds a default-receiver session, and it joins the first listed session with the default name |
| ChromecastFacade.ReconnectCalls | src/Chromecast.js:87-89 | a reconnect always connects first, and lists the sessions iff the connect succeeded |
| ChromecastFacade.Initial | src/Chromecast.js:14-33 | after the constructor's chain, `connected` equals the connect outcome and `closing` is false; a player is bound iff the connect succeeded and the rejoin resolved, and it is the joined one |
| ChromecastFacade.ClosedUnexpectedly | src/Chromecast.js:41 | the close handler's test `connected && !closing` |
| ChromecastFacade.AfterCloseEvent | src/Chromecast.js:42-43 | after a close event both flags are false and the player is unchanged |
| ChromecastFacade.AfterCloseRequest | src/Chromecast.js:92 | after `close()`, `closing` is set, so the state is not one that closed unexpectedly; `connected` and the player are unchanged |
| ChromecastFacade.AfterLaunch | src/Chromecast.js:152-161 | a launch keeps both flags and a bound player; with none bound, it binds the launched player on success and stays unbound on failure |
| ChromecastFacade.Step | src/Chromecast.js:40-166 | no single event sets `connected` or changes a bound player, and a player becomes bound only by a successful launch attempt delivering it |
| ChromecastFacade.Run | src/Chromecast.js:40-166 | a sequence of events applied in order; its properties are the Run lemmas below |
| ChromecastFacade.LaunchResult | src/Chromecast.js:150-166 | what `launch()` settles with; its partner is LaunchBindsItsResult |
| ChromecastFacade.LaunchCalls | src/Chromecast.js:152-155 | `launch()` calls `client.launch` only when no player is bound; its partners are ChromecastFacade.Chromecast.Launch and LaunchedCommandFailures |
| ChromecastFacade.LaunchedCommandResult | src/Chromecast.js:169-186 | the `launch().then(...)` composition: a failed launch's reason, otherwise the command's settled reply; its partner is LaunchedCommandFailures |
| ChromecastFacade.LaunchedCommandCalls | src/Chromecast.js:169-186 | the launch's calls, then one command to the player the launch resolved with, if it resolved; its partner is LaunchedCommandFailures |
| ChromecastFacade.GuardedResult | src/Chromecast.js:134-147 | what a player-guarded command settles with: NOTHING_IS_PLAYING without a player, otherwise the settled reply; its partner is GuardedFailures |
| ChromecastFacade.GuardedCalls | src/Chromecast.js:134-147 | the one command such a command sends, to the bound player, and none without one; its partner is GuardedFailures |
| ChromecastFacade.CloseRequestSuppressesReconnect | src/Chromecast.js:91-94 | after `close()`, the next close event is not unexpected by the test at line 41, whatever launches come before it |
| ChromecastFacade.RunNeverConnects | src/Chromecast.js:40-52 | no event after construction (close event, close request, launch) sets `connected`; only the constructor at lines 18-19 does |
| ChromecastFacade.NoSecondReconnect | src/Chromecast.js:87-89 | since `reconnect` does not set `connected`, once a close event has been handled, no later close event is unexpected |
| ChromecastFacade.RunKeepsPlayer | src/Chromecast.js:40-52 | no event (close handler, close, launch) unbinds or replaces a bound player |
| ChromecastFacade.RunBindsOnlyLaunched | src/Chromecast.js:160 | a player bound during a run is one that a launch attempt delivered |
| ChromecastFacade.Settle | src/Chromecast.js:122-128 | a callback outcome becomes its value on success and the command's one fixed reason on failure, in both directions |
| ChromecastFacade.LaunchBindsItsResult | src/Chromecast.js:150-166 | `launch()` resolves iff a player is bound afterwards, and that player is the one it resolved with; a failure is COULD_NOT_LAUNCH and leaves the state unchanged |
| ChromecastFacade.LaunchedCommandFailures | src/Chromecast.js:168-252 | a command that launches first never yields NOTHING_IS_PLAYING; after a failed launch it yields COULD_NOT_LAUNCH and sends nothing; otherwise it yields its own reason, and its last call goes to the bound player |
| ChromecastFacade.GuardedFailures | src/Chromecast.js:254-337 | a player-guarded command yields NOTHING_IS_PLAYING iff no player is bound, and calls nothing iff no player is bound; otherwise it settles with its own reason |
| ChromecastFacade.QueueLoadOptionsFor | src/Chromecast.js:190-193 | startIndex is 1; repeatMode is "REPEAT_ON" iff repeat is truthy, otherwise "REPEAT_OFF" |
| ChromecastFacade.SettleAsWritten | src/Chromecast.js:122-128 | a transport callback as written: its error branch throws, so the promise stays pending |
| ChromecastFacade.GuardedSettlementAsWritten | src/Chromecast.js:133-148 | a player-guarded command as written: without a player the executor throws and the promise rejects with a TypeError |
| ChromecastFacade.LaunchSettlementAsWritten | src/Chromecast.js:150-166 | `launch()` as written: a failed launch throws in the callback at line 158 and never settles |
| ChromecastFacade.LaunchedCommandSettlementAsWritten | src/Chromecast.js:168-252 | a command that launches first, as written: it settles only when both the launch and the command succeed |
| ChromecastFacade.ClientReasonsUnreachableAsWritten | src/Chromecast.js:120-131 | as written, a command that needs no player stays pending exactly where the intended code rejects with its reason |
| ChromecastFacade.LaunchedReasonsUnreachableAsWritten | src/Chromecast.js:150-252 | as written, a failed launch leaves `launch()` and every launch-first command pending where the intended code gives COULD_NOT_LAUNCH, and a failed command stays pending where it should give its own reason |
| ChromecastFacade.ReconnectCallsAsWritten | src/Chromecast.js:87-89 | the calls `reconnect` makes as written: only the connect |
| ChromecastFacade.GuardedReasonsUnreachableAsWritten | src/Chromecast.js:135-141 | as written, a guarded command without a player rejects with a TypeError and a failed one never settles, where the intended code gives NOTHING_IS_PLAYING and the command's reason |
| ChromecastFacade.ReconnectAsWrittenNeverRejoins | src/Chromecast.js:87-89 | as written, a reconnect never lists the sessions; the intended one does |
| ChromecastFacade.Chromecast.constructor | src/Chromecast.js:9-37 | both flags start false, then the client connects; on success `connected` is set and the player of a joined default session, if any, is bound; the calls are connect and then, on success, the rejoin's calls |
| ChromecastFacade.Chromecast.Connect | src/Chromecast.js:77-85 | one connect call to the configured host |
| ChromecastFacade.Chromecast.JoinIfSessionExists | src/Chromecast.js:64-75 | settles as Rejoin; lists the sessions, then joins the first default session, if there is one; binds nothing |
| ChromecastFacade.Chromecast.OnClose | src/Chromecast.js:40-52 | reconnects exactly when the connection closed unexpectedly; afterwards both flags are false and the player is unchanged; calls nothing else |
| ChromecastFacade.Chromecast.Reconnect | src/Chromecast.js:87-89 | connect, then on success the rejoin's calls; the state is untouched |
| ChromecastFacade.Chromecast.Close | src/Chromecast.js:91-94 | sets `closing`, then closes the client |
| ChromecastFacade.Chromecast.GetClientStatus | src/Chromecast.js:120-131 | one status call, needing no player; a failure is COULD_NOT_GET_CLIENT_STATUS |
| ChromecastFacade.Chromecast.Launch | src/Chromecast.js:150-166 | with a player bound, resolves with it and makes no call; otherwise makes one launch call and binds and resolves with the new player, or rejects with COULD_NOT_LAUNCH and leaves the player unbound |
| ChromecastFacade.Chromecast.SendAfterLaunch | src/Chromecast.js:169-186 | launches, then sends the command to the player the launch resolved with; a failure is the command's reason |
| ChromecastFacade.Chromecast.SendToPlayer | src/Chromecast.js:254-269 | without a player, rejects with NOTHING_IS_PLAYING and calls nothing; otherwise sends once to the bound player; the state is untouched |
| ChromecastFacade.Chromecast.GetPlayerStatus | src/Chromecast.js:133-148 | guarded by the player; a failure is COULD_NOT_GET_PLAYER_STATUS |
| ChromecastFacade.Chromecast.Load | src/Chromecast.js:168-187 | launches, then loads with autoplay on; a failure is COULD_NOT_LOAD |
| ChromecastFacade.Chromecast.QueueLoad | src/Chromecast.js:189-207 | launches, then loads the queue with the QueueLoadOptionsFor(repeat) options; a failure is COULD_NOT_QUEUE_LOAD |
| ChromecastFacade.Chromecast.QueueInsert | src/Chromecast.js:209-222 | launches, then inserts; a failure is COULD_NOT_QUEUE_INSERT |
| ChromecastFacade.Chromecast.QueueReorder | src/Chromecast.js:224-237 | launches, then reorders; a failure is COULD_NOT_QUEUE_REORDER |
| ChromecastFacade.Chromecast.QueueRemove | src/Chromecast.js:239-252 | launches, then removes with currentItemId 0; a failure is COULD_NOT_QUEUE_REMOVE |
| ChromecastFacade.Chromecast.Play | src/Chromecast.js:254-269 | guarded by the player; a failure is COULD_NOT_PLAY |
| ChromecastFacade.Chromecast.Pause | src/Chromecast.js:271-286 | guarded by the player; a failure is COULD_NOT_PAUSE |
| ChromecastFacade.Chromecast.Seek | src/Chromecast.js:288-303 | guarded by the player, and sends the given time; a failure is COULD_NOT_SEEK |
| ChromecastFacade.Chromecast.MutePlayer | src/Chromecast.js:305-320 | guarded by the player; a failure is COULD_NOT_MUTE_PLAYER |
| ChromecastFacade.Chromecast.UnmutePlayer | src/Chromecast.js:322-337 | guarded by the player; a failure is COULD_NOT_UNMUTE_PLAYER |
| ChromecastFacade.Chromecast.SetVolume | src/Chromecast.js:339-350 | one client volume call with the given volume, needing no player; a failure is COULD_NOT_SET_VOLUME |
| ChromecastFacade.Chromecast.Mute | src/Chromecast.js:352-363 | one client volume call with muted true, needing no player; a failure is COULD_NOT_MUTE |
| ChromecastFacade.Chromecast.Unmute | src/Chromecast.js:365-376 | one client volume call with muted false, needing no player; a failure is COULD_NOT_UNMUTE |

## Left out

- The `castv2-client` library: the CASTV2 protocol, TLS, sessions and the media channel a foreign library implements. Each of its calls is recorded; its outcome is a parameter.
- Event re-emission (`status-client`, `status-player`) and the `error` listeners (src/Chromecast.js:24-30, 54-61, 176-181). These are publish/subscribe plumbing with no effect on the three fields. So is the duplicate pair of listeners `load` adds on every successful call.
- Promise scheduling and interleaving: each method runs to completion with its callbacks' outcomes given up front. This includes the `once('error')`/`off` handling in `connect`, and the constructor's `connect().then(...)` chain runs as one step. Launches in flight at the same time are not modelled.
- `getSessions` and `join` (src/Chromecast.js:96-118) have no methods of their own. `JoinIfSessionExists` records their calls, and their rejections with the library's raw error become `SessionsUnavailable` and `JoinFailed`.
- Logging through `node-log`, and index.js, which only re-exports.
- Every rejection with a named reason reads `ErrorCode.CHROMECAST.X`, but src/ErrorCode.js exports the reasons flat. The class models the evidently intended reason X; the code as written is under "## Findings".
- COULD_NOT_GET_CLIENT_STATUS and COULD_NOT_GET_PLAYER_STATUS are used at src/Chromecast.js:125 and 141 but never declared. They are two extra `Reason` values with no code (StatusReasonsMissing).
- ChromecastFacade.Chromecast.Reconnect: models the evidently intended bound call of `joinIfSessionExists`, whose player is discarded, as the code discards it. The unbound call as written is under "## Findings".
- The numeric payloads of status and volume replies are opaque.
- JavaScript truthiness is reduced to presence: a falsy `metadata`, `media` or `repeat` is `None`, and `repeat` is a boolean option.
- ErrorCodes.LoadExports: the object literal's 15 initialisers are modelled as one pass over the declaration table in the same order.

## Findings

| source | as written | input that shows it | evidently intended | confidence | as-written member | corrected member |
|---|---|---|---|---|---|---|
| src/Chromecast.js:136, 141, 257, 262, 274, 279, 291, 296, 308, 313, 325, 330 | `reject(ErrorCode.CHROMECAST.X)` in the player-guarded commands, while src/ErrorCode.js:14-30 has no `CHROMECAST` key | `play()` with no player bound: the executor throws a TypeError, so the promise rejects with it. A player whose `play` callback reports an error: the throw escapes the callback into castv2-client, whose handling of it is not modelled, and the promise never settles | reject with the named reason X | high (not executed; read from the code) | ChromecastFacade.GuardedReasonsUnreachableAsWritten | ChromecastFacade.GuardedFailures |
| src/Chromecast.js:158, 174, 200, 215, 230, 245 | `reject(ErrorCode.CHROMECAST.X)` in the error callbacks of `launch` and of the commands that launch first | `load(media)` with no player bound and a `client.launch` callback that reports an error: the throw at line 158 escapes the callback into castv2-client, whose handling of it is not modelled, and `launch()` and `load` never settle | reject with COULD_NOT_LAUNCH, or with the command's own reason | high (not executed; read from the code) | ChromecastFacade.LaunchedReasonsUnreachableAsWritten | ChromecastFacade.LaunchedCommandFailures |
| src/Chromecast.js:125, 344, 357, 370 | `reject(ErrorCode.CHROMECAST.X)` in the error callbacks of the commands that need no player | `mute()` whose `client.setVolume` callback reports an error: the throw escapes the callback into castv2-client, whose handling of it is not modelled, and the promise never settles | reject with the command's reason | high (not executed; read from the code) | ChromecastFacade.ClientReasonsUnreachableAsWritten | ChromecastFacade.Settle |
| src/Chromecast.js:88 | `this.connect().then(this.joinIfSessionExists)` passes the method unbound | a close event while connected, whose reconnect then connects: `joinIfSessionExists` runs with `this` undefined and throws before `getSessions` | list the sessions and rejoin after reconnecting | high (not executed; read from the code) | ChromecastFacade.ReconnectAsWrittenNeverRejoins | ChromecastFacade.Chromecast.Reconnect |
