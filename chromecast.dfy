/**
 * src/Chromecast.js: the connection and player state of one Chromecast, the
 * close-event handler that decides whether to reconnect, and the command
 * facade that launches the default media receiver on demand and replaces
 * every transport error by one fixed failure reason.
 *
 * The state is three fields, `connected`, `closing` and the optional
 * `player`. The pure part of this module states how each event changes
 * them (Step, Run) and what each command resolves with; the class below
 * performs the same steps on its fields and records every call it makes
 * on the transport in `sent`.
 */
module ChromecastFacade {
  import opened Wrappers
  import opened ErrorCodes
  import opened Transport
  import ChromecastMedia
  import ChromecastQueueMedia

  /** The display name of a session the facade will join. */
  const DefaultReceiverName: string := "Default Media Receiver"

  /** The constructor's options. */
  datatype Options = Options(host: string, name: string)

  // ----- Session selection -----

  /** `sessions.find(...)`: the index of the first session with the default
      receiver's display name. */
  function FindDefault(sessions: seq<Session>): (r: Option<nat>)
    ensures r.Some? ==> r.value < |sessions| && sessions[r.value].displayName == DefaultReceiverName
    ensures r.Some? ==> forall j :: 0 <= j < r.value ==> sessions[j].displayName != DefaultReceiverName
    ensures r.None? <==> forall j :: 0 <= j < |sessions| ==> sessions[j].displayName != DefaultReceiverName
  {
    if sessions == [] then None
    else if sessions[0].displayName == DefaultReceiverName then Some(0)
    else match FindDefault(sessions[1..])
      case None => None
      case Some(i) => Some(i + 1)
  }

  /** Why `joinIfSessionExists` rejected. */
  datatype JoinError = SessionsUnavailable | NoExistingSession | JoinFailed

  /** What `joinIfSessionExists` settles with, given the outcome of listing
      the sessions and of joining the one selected. */
  function Rejoin(sessions: Outcome<seq<Session>>, join: Outcome<Player>): (r: Result<Player, JoinError>)
    ensures r == Failure(SessionsUnavailable) <==> sessions.Failed?
    ensures r == Failure(NoExistingSession) <==>
      sessions.Done? && forall j :: 0 <= j < |sessions.value| ==> sessions.value[j].displayName != DefaultReceiverName
    ensures r.Success? <==>
      sessions.Done? && join.Done? &&
      exists j :: 0 <= j < |sessions.value| && sessions.value[j].displayName == DefaultReceiverName
    ensures r.Success? ==> r.value == join.value
  {
    if sessions.Failed? then Failure(SessionsUnavailable)
    else if FindDefault(sessions.value).None? then Failure(NoExistingSession)
    else if join.Failed? then Failure(JoinFailed)
    else Success(join.value)
  }

  /** The transport calls `joinIfSessionExists` makes. */
  function RejoinCalls(sessions: Outcome<seq<Session>>): (r: seq<Call>)
    ensures 1 <= |r| <= 2 && r[0] == GetSessions
    ensures |r| == 2 <==>
      sessions.Done? && exists j :: 0 <= j < |sessions.value| && sessions.value[j].displayName == DefaultReceiverName
    ensures |r| == 2 ==>
      sessions.Done? &&
      exists k :: 0 <= k < |sessions.value| && r[1] == Join(sessions.value[k]) &&
        sessions.value[k].displayName == DefaultReceiverName &&
        forall j :: 0 <= j < k ==> sessions.value[j].displayName != DefaultReceiverName
  {
    if sessions.Done? && FindDefault(sessions.value).Some? then
      [GetSessions, Join(sessions.value[FindDefault(sessions.value).value])]
    else
      [GetSessions]
  }

  /** The transport calls `reconnect` makes: connecting, then on success
      the session rejoin. */
  function ReconnectCalls(host: string, connectOk: bool, sessions: Outcome<seq<Session>>): (r: seq<Call>)
    ensures |r| >= 1 && r[0] == Connect(host)
    ensures GetSessions in r <==> connectOk
    ensures !connectOk ==> r == [Connect(host)]
  {
    [Connect(host)] + if connectOk then RejoinCalls(sessions) else []
  }

  // ----- The state machine -----

  datatype State = State(connected: bool, closing: bool, player: Option<Player>)

  /** The state the constructor's promise chain leaves behind. */
  function Initial(connectOk: bool, joined: Result<Player, JoinError>): (s: State)
    ensures s.connected == connectOk && !s.closing
    ensures s.player.Some? <==> connectOk && joined.Success?
    ensures s.player.Some? ==> s.player.value == joined.value
  {
    State(connectOk, false, if connectOk && joined.Success? then Some(joined.value) else None)
  }

  /** The close handler's test: the connection was up and nobody asked for
      it to close. */
  predicate ClosedUnexpectedly(s: State) {
    s.connected && !s.closing
  }

  /** The close handler resets both flags and leaves the player bound. */
  function AfterCloseEvent(s: State): (r: State)
    ensures !r.connected && !r.closing
    ensures r.player == s.player
  {
    State(false, false, s.player)
  }

  /** `close()` marks the close as requested. */
  function AfterCloseRequest(s: State): (r: State)
    ensures r.closing && !ClosedUnexpectedly(r)
    ensures r.connected == s.connected && r.player == s.player
  {
    s.(closing := true)
  }

  /** `launch()` binds a newly launched player only when none is bound. */
  function AfterLaunch(s: State, launched: Outcome<Player>): (r: State)
    ensures r.connected == s.connected && r.closing == s.closing
    ensures s.player.Some? ==> r.player == s.player
    ensures s.player.None? ==> r.player == if launched.Done? then Some(launched.value) else None
  {
    if s.player.None? && launched.Done? then s.(player := Some(launched.value)) else s
  }

  /** Everything after construction that changes the state; every other
      operation leaves it as it is. */
  datatype Event = CloseRequested | CloseEvent | LaunchAttempt(launched: Outcome<Player>)

  /** One event: none of them sets `connected` or changes a bound player,
      and only a launch attempt binds one. */
  function Step(s: State, e: Event): (r: State)
    ensures r.connected ==> s.connected
    ensures s.player.Some? ==> r.player == s.player
    ensures s.player.None? && r.player.Some? ==> e == LaunchAttempt(Done(r.player.value))
  {
    match e
    case CloseRequested => AfterCloseRequest(s)
    case CloseEvent => AfterCloseEvent(s)
    case LaunchAttempt(launched) => AfterLaunch(s, launched)
  }

  function Run(s: State, es: seq<Event>): State
    decreases |es|
  {
    if es == [] then s else Run(Step(s, es[0]), es[1..])
  }

  /** After `close()`, the close events that follow it are never unexpected,
      however many launches come in between. */
  lemma {:induction false} CloseRequestSuppressesReconnect(s: State, es: seq<Event>)
    requires forall i :: 0 <= i < |es| ==> es[i] != CloseEvent
    ensures Run(AfterCloseRequest(s), es).closing
    ensures !ClosedUnexpectedly(Run(AfterCloseRequest(s), es))
    decreases |es|
  {
    if es != [] {
      assert Step(AfterCloseRequest(s), es[0]) == AfterCloseRequest(Step(s, es[0]));
      CloseRequestSuppressesReconnect(Step(s, es[0]), es[1..]);
    }
  }

  /** No event after construction sets `connected`. */
  lemma {:induction false} RunNeverConnects(s: State, es: seq<Event>)
    ensures Run(s, es).connected ==> s.connected
    decreases |es|
  {
    if es != [] {
      RunNeverConnects(Step(s, es[0]), es[1..]);
    }
  }

  /** Once one close event has been handled, no later one reconnects. */
  lemma NoSecondReconnect(s: State, es: seq<Event>)
    ensures !ClosedUnexpectedly(Run(AfterCloseEvent(s), es))
  {
    RunNeverConnects(AfterCloseEvent(s), es);
  }

  /** No event unbinds or replaces a bound player. */
  lemma {:induction false} RunKeepsPlayer(s: State, es: seq<Event>)
    requires s.player.Some?
    ensures Run(s, es).player == s.player
    decreases |es|
  {
    if es != [] {
      RunKeepsPlayer(Step(s, es[0]), es[1..]);
    }
  }

  /** A player bound during a run is one that a launch attempt delivered. */
  lemma {:induction false} RunBindsOnlyLaunched(s: State, es: seq<Event>)
    requires s.player.None? && Run(s, es).player.Some?
    ensures exists i :: 0 <= i < |es| && es[i] == LaunchAttempt(Done(Run(s, es).player.value))
    decreases |es|
  {
    var t := Step(s, es[0]);
    if t.player.Some? {
      RunKeepsPlayer(t, es[1..]);
      assert es[0] == LaunchAttempt(Done(Run(s, es).player.value));
    } else {
      RunBindsOnlyLaunched(t, es[1..]);
      var i :| 0 <= i < |es[1..]| && es[1..][i] == LaunchAttempt(Done(Run(t, es[1..]).player.value));
      assert es[i + 1] == es[1..][i];
    }
  }

  // ----- Command results -----

  /** A transport callback settled into the facade's result: its value, or
      the command's one fixed reason. */
  function Settle<T>(outcome: Outcome<T>, reason: Reason): (r: Result<T, Reason>)
    ensures r.Success? <==> outcome.Done?
    ensures r.Success? ==> r.value == outcome.value
    ensures r.Failure? ==> r.error == reason
  {
    match outcome
    case Done(v) => Success(v)
    case Failed => Failure(reason)
  }

  /** What `launch()` resolves with. */
  function LaunchResult(s: State, launched: Outcome<Player>): Result<Player, Reason> {
    if s.player.Some? then Success(s.player.value) else Settle(launched, CouldNotLaunch)
  }

  /** `launch()` calls the transport only when no player is bound. */
  function LaunchCalls(s: State): seq<Call> {
    if s.player.Some? then [] else [LaunchReceiver]
  }

  /** The player `launch()` resolves with is the one bound afterwards; a
      failed launch leaves no player bound. */
  lemma LaunchBindsItsResult(s: State, launched: Outcome<Player>)
    ensures LaunchResult(s, launched).Success? <==> AfterLaunch(s, launched).player.Some?
    ensures LaunchResult(s, launched).Success? ==>
      AfterLaunch(s, launched).player == Some(LaunchResult(s, launched).value)
    ensures LaunchResult(s, launched).Failure? ==>
      LaunchResult(s, launched).error == CouldNotLaunch && AfterLaunch(s, launched) == s
  {
  }

  /** What a command sent after `launch()` resolves with. */
  function LaunchedCommandResult<T>(s: State, launched: Outcome<Player>, reply: Outcome<T>, reason: Reason): Result<T, Reason> {
    match LaunchResult(s, launched)
    case Failure(e) => Failure(e)
    case Success(_) => Settle(reply, reason)
  }

  /** The transport calls of a command sent after `launch()`: the launch, if
      any, then the command to the launched player, if there is one. */
  function LaunchedCommandCalls(s: State, launched: Outcome<Player>, command: PlayerCommand): seq<Call> {
    match LaunchResult(s, launched)
    case Failure(_) => LaunchCalls(s)
    case Success(p) => LaunchCalls(s) + [Send(p, command)]
  }

  /** A command that launches first never reports that nothing is playing;
      a failed launch surfaces as COULD_NOT_LAUNCH before the command is
      sent; otherwise the command's own reason, sent to the right player. */
  lemma LaunchedCommandFailures<T>(s: State, launched: Outcome<Player>, reply: Outcome<T>, reason: Reason, command: PlayerCommand)
    requires reason != NothingIsPlaying
    ensures LaunchedCommandResult(s, launched, reply, reason) != Failure(NothingIsPlaying)
    ensures LaunchResult(s, launched).Failure? ==>
      LaunchedCommandResult(s, launched, reply, reason) == Failure(CouldNotLaunch) &&
      forall i :: 0 <= i < |LaunchedCommandCalls(s, launched, command)| ==> !LaunchedCommandCalls(s, launched, command)[i].Send?
    ensures LaunchResult(s, launched).Success? ==>
      LaunchedCommandResult(s, launched, reply, reason) == Settle(reply, reason) &&
      LaunchedCommandCalls(s, launched, command)[|LaunchedCommandCalls(s, launched, command)| - 1]
        == Send(AfterLaunch(s, launched).player.value, command)
  {
  }

  /** What a command that needs a bound player resolves with. */
  function GuardedResult<T>(s: State, reply: Outcome<T>, reason: Reason): Result<T, Reason> {
    if s.player.None? then Failure(NothingIsPlaying) else Settle(reply, reason)
  }

  /** Such a command calls the transport only when a player is bound. */
  function GuardedCalls(s: State, command: PlayerCommand): seq<Call> {
    if s.player.None? then [] else [Send(s.player.value, command)]
  }

  /** Without a bound player such a command rejects with NOTHING_IS_PLAYING
      and calls nothing; with one, it reports its own reason and only then. */
  lemma GuardedFailures<T>(s: State, reply: Outcome<T>, reason: Reason, command: PlayerCommand)
    requires reason != NothingIsPlaying
    ensures GuardedResult(s, reply, reason) == Failure(NothingIsPlaying) <==> s.player.None?
    ensures GuardedCalls(s, command) == [] <==> s.player.None?
    ensures s.player.Some? ==> GuardedResult(s, reply, reason) == Settle(reply, reason)
  {
  }

  /** The options `queueLoad` sends: always from index 1, repeating exactly
      when `repeat` is truthy. */
  function QueueLoadOptionsFor(repeat: Option<bool>): (o: QueueLoadOptions)
    ensures o.startIndex == 1
    ensures o.repeatMode == "REPEAT_ON" <==> repeat == Some(true)
    ensures o.repeatMode == "REPEAT_ON" || o.repeatMode == "REPEAT_OFF"
  {
    QueueLoadOptions(1, if repeat == Some(true) then "REPEAT_ON" else "REPEAT_OFF")
  }

  // ----- The code as written -----

  /** How a promise of the code as written ends. Every rejection reads
      `ErrorCode.CHROMECAST.X`, and the exported table has no `CHROMECAST`
      key: evaluated in a promise executor, that rejects the promise with a
      TypeError; evaluated in a transport callback, it throws out of the
      callback and the promise never settles. `Pending` records only the
      promise: the exception escapes onto castv2-client's callback stack,
      and what happens to it there is up to the library and not modelled. */
  datatype Settlement<T> = Resolved(value: T) | RejectedWithTypeError | Pending

  /** A transport callback as written: its error branch throws, so the
      promise stays pending. */
  function SettleAsWritten<T>(outcome: Outcome<T>): Settlement<T> {
    match outcome
    case Done(v) => Resolved(v)
    case Failed => Pending
  }

  /** A player-guarded command as written: without a player, the executor
      throws and the promise rejects with a TypeError. */
  function GuardedSettlementAsWritten<T>(s: State, reply: Outcome<T>): Settlement<T> {
    if s.player.None? then RejectedWithTypeError else SettleAsWritten(reply)
  }

  /** `launch()` as written. */
  function LaunchSettlementAsWritten(s: State, launched: Outcome<Player>): Settlement<Player> {
    if s.player.Some? then Resolved(s.player.value) else SettleAsWritten(launched)
  }

  /** A command that launches first, as written: it waits on the launch. */
  function LaunchedCommandSettlementAsWritten<T>(s: State, launched: Outcome<Player>, reply: Outcome<T>): Settlement<T> {
    match LaunchSettlementAsWritten(s, launched)
    case Resolved(_) => SettleAsWritten(reply)
    case RejectedWithTypeError => RejectedWithTypeError
    case Pending => Pending
  }

  /** As written, a command needing no player never rejects: a transport
      failure leaves it pending, where the intended code rejects with the
      command's reason. */
  lemma ClientReasonsUnreachableAsWritten<T>(reply: Outcome<T>, reason: Reason)
    ensures SettleAsWritten(reply) == Pending <==> Settle(reply, reason) == Failure(reason)
    ensures reply.Done? ==> SettleAsWritten(reply) == Resolved(reply.value) && Settle(reply, reason) == Success(reply.value)
  {
  }

  /** As written, no guarded command ever rejects with a reason: without a
      player it rejects with a TypeError, and a transport failure leaves it
      pending, where the intended code rejects with NOTHING_IS_PLAYING and
      with the command's reason. */
  lemma GuardedReasonsUnreachableAsWritten<T>(s: State, reply: Outcome<T>, reason: Reason)
    ensures s.player.None? ==>
      GuardedSettlementAsWritten(s, reply) == RejectedWithTypeError && GuardedResult(s, reply, reason) == Failure(NothingIsPlaying)
    ensures s.player.Some? && reply.Failed? ==>
      GuardedSettlementAsWritten(s, reply) == Pending && GuardedResult(s, reply, reason) == Failure(reason)
    ensures reply.Done? && s.player.Some? ==>
      GuardedSettlementAsWritten(s, reply) == Resolved(reply.value) && GuardedResult(s, reply, reason) == Success(reply.value)
  {
  }

  /** As written, a failed launch leaves `launch()` and every command that
      launches first pending, where the intended code rejects with
      COULD_NOT_LAUNCH; a failure of the command itself leaves it pending
      too, instead of its own reason. */
  lemma LaunchedReasonsUnreachableAsWritten<T>(s: State, launched: Outcome<Player>, reply: Outcome<T>, reason: Reason)
    ensures s.player.None? && launched.Failed? ==>
      LaunchSettlementAsWritten(s, launched) == Pending && LaunchResult(s, launched) == Failure(CouldNotLaunch) &&
      LaunchedCommandSettlementAsWritten(s, launched, reply) == Pending &&
      LaunchedCommandResult(s, launched, reply, reason) == Failure(CouldNotLaunch)
    ensures LaunchResult(s, launched).Success? && reply.Failed? ==>
      LaunchedCommandSettlementAsWritten(s, launched, reply) == Pending &&
      LaunchedCommandResult(s, launched, reply, reason) == Failure(reason)
    ensures LaunchedCommandSettlementAsWritten(s, launched, reply) != RejectedWithTypeError
  {
  }

  /** The calls `reconnect` makes as written: `then(this.joinIfSessionExists)`
      runs the method with `this` undefined, so it throws before listing the
      sessions, whether or not the connect succeeded. */
  function ReconnectCallsAsWritten(host: string): seq<Call> {
    [Connect(host)]
  }

  /** As written, a successful reconnect never lists the sessions; the
      intended reconnect does. */
  lemma ReconnectAsWrittenNeverRejoins(host: string, sessions: Outcome<seq<Session>>)
    ensures GetSessions !in ReconnectCallsAsWritten(host)
    ensures GetSessions in ReconnectCalls(host, true, sessions)
  {
    assert ReconnectCalls(host, true, sessions)[1] == GetSessions;
  }

  // ----- The facade -----

  class Chromecast {
    const options: Options
    var connected: bool
    var closing: bool
    var player: Option<Player>
    /** Every call made on the transport, oldest first. */
    ghost var sent: seq<Call>

    function Snapshot(): State
      reads this
    {
      State(connected, closing, player)
    }

    /** The constructor starts with both flags false, connects, and on
        success sets `connected` and binds the player of an existing default
        receiver session, if it can join one. */
    constructor (options: Options, connectOk: bool, sessions: Outcome<seq<Session>>, join: Outcome<Player>)
      ensures this.options == options
      ensures Snapshot() == Initial(connectOk, Rejoin(sessions, join))
      ensures sent == [Transport.Connect(options.host)] + if connectOk then RejoinCalls(sessions) else []
    {
      this.options := options;
      connected := false;
      closing := false;
      player := None;
      sent := [];
      new;
      Connect();
      if connectOk {
        connected := true;
        var joined := JoinIfSessionExists(sessions, join);
        if joined.Success? {
          player := Some(joined.value);
        }
      }
    }

    /** `connect()`: opens the connection to the configured host. */
    method Connect()
      modifies this`sent
      ensures sent == old(sent) + [Transport.Connect(options.host)]
    {
      sent := sent + [Transport.Connect(options.host)];
    }

    /** `joinIfSessionExists()`: lists the sessions and joins the first one
        of the default receiver; it binds nothing itself. */
    method JoinIfSessionExists(sessions: Outcome<seq<Session>>, join: Outcome<Player>) returns (r: Result<Player, JoinError>)
      modifies this`sent
      ensures r == Rejoin(sessions, join)
      ensures sent == old(sent) + RejoinCalls(sessions)
    {
      sent := sent + [GetSessions];
      if sessions.Failed? {
        return Failure(SessionsUnavailable);
      }
      var found := FindDefault(sessions.value);
      if found.None? {
        return Failure(NoExistingSession);
      }
      sent := sent + [Join(sessions.value[found.value])];
      r := if join.Done? then Success(join.value) else Failure(JoinFailed);
    }

    /** The close-event handler. It reconnects exactly when the connection
        closed unexpectedly, and resets both flags whatever the branch; it
        never touches the player. */
    method OnClose(connectOk: bool, sessions: Outcome<seq<Session>>, join: Outcome<Player>) returns (reconnecting: bool)
      modifies this
      ensures reconnecting == ClosedUnexpectedly(old(Snapshot()))
      ensures Snapshot() == AfterCloseEvent(old(Snapshot()))
      ensures sent == old(sent) + if reconnecting then ReconnectCalls(options.host, connectOk, sessions) else []
    {
      var closedUnexpectedly := connected && !closing;
      connected := false;
      closing := false;
      if closedUnexpectedly {
        Reconnect(connectOk, sessions, join);
      }
      reconnecting := closedUnexpectedly;
    }

    /** `reconnect()`: connects and then tries the session rejoin, whose
        player is dropped; `connected` stays false. */
    method Reconnect(connectOk: bool, sessions: Outcome<seq<Session>>, join: Outcome<Player>)
      modifies this`sent
      ensures sent == old(sent) + ReconnectCalls(options.host, connectOk, sessions)
    {
      Connect();
      if connectOk {
        var dropped := JoinIfSessionExists(sessions, join);
      }
    }

    /** `close()`: marks the close as requested, then closes the client. */
    method Close()
      modifies this
      ensures Snapshot() == AfterCloseRequest(old(Snapshot()))
      ensures sent == old(sent) + [CloseClient]
    {
      closing := true;
      sent := sent + [CloseClient];
    }

    /** `getClientStatus()`: needs no player. */
    method GetClientStatus(reply: Outcome<Status>) returns (r: Result<Status, Reason>)
      modifies this`sent
      ensures r == Settle(reply, CouldNotGetClientStatus)
      ensures sent == old(sent) + [Transport.GetClientStatus]
    {
      sent := sent + [Transport.GetClientStatus];
      r := Settle(reply, CouldNotGetClientStatus);
    }

    /** `launch()`: the bound player, without a transport call; otherwise
        the newly launched player, which is bound. */
    method Launch(launched: Outcome<Player>) returns (r: Result<Player, Reason>)
      modifies this
      ensures Snapshot() == AfterLaunch(old(Snapshot()), launched)
      ensures r == LaunchResult(old(Snapshot()), launched)
      ensures sent == old(sent) + LaunchCalls(old(Snapshot()))
    {
      if player.Some? {
        return Success(player.value);
      }
      sent := sent + [LaunchReceiver];
      if launched.Failed? {
        return Failure(CouldNotLaunch);
      }
      player := Some(launched.value);
      r := Success(launched.value);
    }

    /** Launches, then sends `command` to the player `launch()` resolved
        with; a failed command becomes `reason`. */
    method SendAfterLaunch(command: PlayerCommand, launched: Outcome<Player>, reply: Outcome<Status>, reason: Reason)
      returns (r: Result<Status, Reason>)
      modifies this
      ensures Snapshot() == AfterLaunch(old(Snapshot()), launched)
      ensures r == LaunchedCommandResult(old(Snapshot()), launched, reply, reason)
      ensures sent == old(sent) + LaunchedCommandCalls(old(Snapshot()), launched, command)
    {
      var p := Launch(launched);
      if p.Failure? {
        return Failure(p.error);
      }
      sent := sent + [Send(p.value, command)];
      r := Settle(reply, reason);
    }

    /** Sends `command` to the bound player, or rejects with
        NOTHING_IS_PLAYING when there is none; a failed command becomes
        `reason`. */
    method SendToPlayer(command: PlayerCommand, reply: Outcome<Status>, reason: Reason) returns (r: Result<Status, Reason>)
      modifies this`sent
      ensures r == GuardedResult(old(Snapshot()), reply, reason)
      ensures sent == old(sent) + GuardedCalls(old(Snapshot()), command)
    {
      if player.None? {
        return Failure(NothingIsPlaying);
      }
      sent := sent + [Send(player.value, command)];
      r := Settle(reply, reason);
    }

    /** `getPlayerStatus()`. */
    method GetPlayerStatus(reply: Outcome<Status>) returns (r: Result<Status, Reason>)
      modifies this`sent
      ensures r == GuardedResult(old(Snapshot()), reply, CouldNotGetPlayerStatus)
      ensures sent == old(sent) + GuardedCalls(old(Snapshot()), Transport.GetPlayerStatus)
    {
      r := SendToPlayer(Transport.GetPlayerStatus, reply, CouldNotGetPlayerStatus);
    }

    /** `load(media)`: launches, then loads with autoplay on. */
    method Load(media: ChromecastMedia.Media, launched: Outcome<Player>, reply: Outcome<Status>) returns (r: Result<Status, Reason>)
      modifies this
      ensures Snapshot() == AfterLaunch(old(Snapshot()), launched)
      ensures r == LaunchedCommandResult(old(Snapshot()), launched, reply, CouldNotLoad)
      ensures sent == old(sent) + LaunchedCommandCalls(old(Snapshot()), launched, LoadMedia(media, true))
    {
      r := SendAfterLaunch(LoadMedia(media, true), launched, reply, CouldNotLoad);
    }

    /** `queueLoad(items, repeat)`: launches, then loads the queue. */
    method QueueLoad(items: seq<ChromecastQueueMedia.QueueMedia>, repeat: Option<bool>, launched: Outcome<Player>, reply: Outcome<Status>)
      returns (r: Result<Status, Reason>)
      modifies this
      ensures Snapshot() == AfterLaunch(old(Snapshot()), launched)
      ensures r == LaunchedCommandResult(old(Snapshot()), launched, reply, CouldNotQueueLoad)
      ensures sent == old(sent) + LaunchedCommandCalls(old(Snapshot()), launched, Transport.QueueLoad(items, QueueLoadOptionsFor(repeat)))
    {
      var queueOptions := QueueLoadOptionsFor(repeat);
      r := SendAfterLaunch(Transport.QueueLoad(items, queueOptions), launched, reply, CouldNotQueueLoad);
    }

    /** `queueInsert(items)`: launches too. */
    method QueueInsert(items: seq<ChromecastQueueMedia.QueueMedia>, launched: Outcome<Player>, reply: Outcome<Status>)
      returns (r: Result<Status, Reason>)
      modifies this
      ensures Snapshot() == AfterLaunch(old(Snapshot()), launched)
      ensures r == LaunchedCommandResult(old(Snapshot()), launched, reply, CouldNotQueueInsert)
      ensures sent == old(sent) + LaunchedCommandCalls(old(Snapshot()), launched, Transport.QueueInsert(items))
    {
      r := SendAfterLaunch(Transport.QueueInsert(items), launched, reply, CouldNotQueueInsert);
    }

    /** `queueReorder(itemIds)`: launches too. */
    method QueueReorder(itemIds: seq<int>, launched: Outcome<Player>, reply: Outcome<Status>) returns (r: Result<Status, Reason>)
      modifies this
      ensures Snapshot() == AfterLaunch(old(Snapshot()), launched)
      ensures r == LaunchedCommandResult(old(Snapshot()), launched, reply, CouldNotQueueReorder)
      ensures sent == old(sent) + LaunchedCommandCalls(old(Snapshot()), launched, Transport.QueueReorder(itemIds))
    {
      r := SendAfterLaunch(Transport.QueueReorder(itemIds), launched, reply, CouldNotQueueReorder);
    }

    /** `queueRemove(itemIds)`: launches too, and always sends
        `currentItemId` 0. */
    method QueueRemove(itemIds: seq<int>, launched: Outcome<Player>, reply: Outcome<Status>) returns (r: Result<Status, Reason>)
      modifies this
      ensures Snapshot() == AfterLaunch(old(Snapshot()), launched)
      ensures r == LaunchedCommandResult(old(Snapshot()), launched, reply, CouldNotQueueRemove)
      ensures sent == old(sent) + LaunchedCommandCalls(old(Snapshot()), launched, Transport.QueueRemove(itemIds, 0))
    {
      r := SendAfterLaunch(Transport.QueueRemove(itemIds, 0), launched, reply, CouldNotQueueRemove);
    }

    /** `play()`. */
    method Play(reply: Outcome<Status>) returns (r: Result<Status, Reason>)
      modifies this`sent
      ensures r == GuardedResult(old(Snapshot()), reply, CouldNotPlay)
      ensures sent == old(sent) + GuardedCalls(old(Snapshot()), PlayMedia)
    {
      r := SendToPlayer(PlayMedia, reply, CouldNotPlay);
    }

    /** `pause()`. */
    method Pause(reply: Outcome<Status>) returns (r: Result<Status, Reason>)
      modifies this`sent
      ensures r == GuardedResult(old(Snapshot()), reply, CouldNotPause)
      ensures sent == old(sent) + GuardedCalls(old(Snapshot()), PauseMedia)
    {
      r := SendToPlayer(PauseMedia, reply, CouldNotPause);
    }

    /** `seek(seconds)`. */
    method Seek(seconds: real, reply: Outcome<Status>) returns (r: Result<Status, Reason>)
      modifies this`sent
      ensures r == GuardedResult(old(Snapshot()), reply, CouldNotSeek)
      ensures sent == old(sent) + GuardedCalls(old(Snapshot()), SeekTo(seconds))
    {
      r := SendToPlayer(SeekTo(seconds), reply, CouldNotSeek);
    }

    /** `mutePlayer()`. */
    method MutePlayer(reply: Outcome<Status>) returns (r: Result<Status, Reason>)
      modifies this`sent
      ensures r == GuardedResult(old(Snapshot()), reply, CouldNotMutePlayer)
      ensures sent == old(sent) + GuardedCalls(old(Snapshot()), MuteMedia)
    {
      r := SendToPlayer(MuteMedia, reply, CouldNotMutePlayer);
    }

    /** `unmutePlayer()`. */
    method UnmutePlayer(reply: Outcome<Status>) returns (r: Result<Status, Reason>)
      modifies this`sent
      ensures r == GuardedResult(old(Snapshot()), reply, CouldNotUnmutePlayer)
      ensures sent == old(sent) + GuardedCalls(old(Snapshot()), UnmuteMedia)
    {
      r := SendToPlayer(UnmuteMedia, reply, CouldNotUnmutePlayer);
    }

    /** `setVolume(volume)`: needs no player. */
    method SetVolume(volume: Volume, reply: Outcome<Status>) returns (r: Result<Status, Reason>)
      modifies this`sent
      ensures r == Settle(reply, CouldNotSetVolume)
      ensures sent == old(sent) + [Transport.SetVolume(volume)]
    {
      sent := sent + [Transport.SetVolume(volume)];
      r := Settle(reply, CouldNotSetVolume);
    }

    /** `mute()`: sets the client volume muted; needs no player. */
    method Mute(reply: Outcome<Status>) returns (r: Result<Status, Reason>)
      modifies this`sent
      ensures r == Settle(reply, CouldNotMute)
      ensures sent == old(sent) + [Transport.SetVolume(Volume(None, Some(true)))]
    {
      sent := sent + [Transport.SetVolume(Volume(None, Some(true)))];
      r := Settle(reply, CouldNotMute);
    }

    /** `unmute()`: sets the client volume unmuted; needs no player. */
    method Unmute(reply: Outcome<Status>) returns (r: Result<Status, Reason>)
      modifies this`sent
      ensures r == Settle(reply, CouldNotUnmute)
      ensures sent == old(sent) + [Transport.SetVolume(Volume(None, Some(false)))]
    {
      sent := sent + [Transport.SetVolume(Volume(None, Some(false)))];
      r := Settle(reply, CouldNotUnmute);
    }
  }

  /** A caller's view: connected without an existing session, `load`
      launches and binds a player, and `play` then goes to that same player
      without a second launch. */
  method LoadThenPlay(options: Options, media: ChromecastMedia.Media, p: Player, status: Status) {
    var cast := new Chromecast(options, true, Done([]), Failed);
    assert cast.player.None? && cast.connected;
    var loaded := cast.Load(media, Done(p), Done(status));
    assert loaded == Success(status) && cast.player == Some(p);
    var before := cast.sent;
    var played := cast.Play(Done(status));
    assert played == Success(status);
    assert cast.sent == before + [Send(p, PlayMedia)];
  }
}
