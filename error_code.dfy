/**
 * The error taxonomy of src/ErrorCode.js: a module-level counter hands every
 * newly constructed ErrorCode the next integer, and the module exports one
 * ErrorCode per named failure reason, constructed in declaration order.
 */
module ErrorCodes {
  import opened Wrappers

  /** The named failure reasons. The last two are named by Chromecast.js but
      have no entry in the table ErrorCode.js exports. */
  datatype Reason =
    | NothingIsPlaying
    | CouldNotLaunch
    | CouldNotLoad
    | CouldNotSetVolume
    | CouldNotMute
    | CouldNotUnmute
    | CouldNotSeek
    | CouldNotPause
    | CouldNotPlay
    | CouldNotMutePlayer
    | CouldNotUnmutePlayer
    | CouldNotQueueLoad
    | CouldNotQueueInsert
    | CouldNotQueueRemove
    | CouldNotQueueReorder
    | CouldNotGetClientStatus
    | CouldNotGetPlayerStatus

  /** One entry of the export table: the exported name and the message its
      ErrorCode is constructed with. */
  datatype Declaration = Declaration(reason: Reason, message: string)

  /** The export table, in declaration order. */
  const Declarations: seq<Declaration> := [
    Declaration(NothingIsPlaying, "Can't play, nothing is playing"),
    Declaration(CouldNotLaunch, "Could not launch DefaultMediaReceiver"),
    Declaration(CouldNotLoad, "Could not load url"),
    Declaration(CouldNotSetVolume, "Could not set volume"),
    Declaration(CouldNotMute, "Could not mute"),
    Declaration(CouldNotUnmute, "Could not unmute"),
    Declaration(CouldNotSeek, "Could not seek"),
    Declaration(CouldNotPause, "Could not pause"),
    Declaration(CouldNotPlay, "Could not play"),
    Declaration(CouldNotMutePlayer, "Could not mute player"),
    Declaration(CouldNotUnmutePlayer, "Could not unmute player"),
    Declaration(CouldNotQueueLoad, "Could not load queue"),
    Declaration(CouldNotQueueInsert, "Could not insert into queue"),
    Declaration(CouldNotQueueRemove, "Could not remove from queue"),
    Declaration(CouldNotQueueReorder, "Could not reorder queue")
  ]

  /** An ErrorCode object: its integer code and its message. */
  datatype ErrorCode = ErrorCode(code: int, message: string) {
    /** `is` compares by code only, never by message. */
    predicate Is(c: int) {
      code == c
    }
  }

  /** The module-level counter. */
  class Registry {
    var counter: int

    /** Module load: the counter starts at 0. */
    constructor ()
      ensures counter == 0
    {
      counter := 0;
    }

    /** `new ErrorCode(message)`: pre-increments the counter and takes its new
        value as the code, so every code exceeds all codes handed out before
        it; the message is kept unchanged. */
    method NewErrorCode(message: string) returns (e: ErrorCode)
      modifies this
      ensures counter == old(counter) + 1
      ensures e == ErrorCode(counter, message)
    {
      counter := counter + 1;
      e := ErrorCode(counter, message);
    }
  }

  /** The exported ErrorCodes as values: the i-th declared reason gets code
      i + 1 and its declared message. */
  function ExportTable(): seq<ErrorCode> {
    seq(|Declarations|, i requires 0 <= i < |Declarations| => ErrorCode(i + 1, Declarations[i].message))
  }

  /** Evaluating the export table: one ErrorCode per entry, constructed in
      declaration order against the counter as module load leaves it. */
  method LoadExports() returns (table: seq<ErrorCode>)
    ensures table == ExportTable()
  {
    var counter := new Registry();
    table := [];
    for i := 0 to |Declarations|
      invariant counter.counter == i
      invariant table == ExportTable()[..i]
    {
      var e := counter.NewErrorCode(Declarations[i].message);
      table := table + [e];
    }
  }

  /** The reason is one of the exported names. */
  ghost predicate IsExported(r: Reason) {
    exists i :: 0 <= i < |Declarations| && Declarations[i].reason == r
  }

  /** Where the reason stands in the export table. */
  ghost function Position(r: Reason): (i: nat)
    requires IsExported(r)
    ensures i < |Declarations| && Declarations[i].reason == r
  {
    var i :| 0 <= i < |Declarations| && Declarations[i].reason == r; i
  }

  /** The ErrorCode exported under the name of `r`; None for a reason the
      table lacks. */
  ghost function Exported(r: Reason): Option<ErrorCode> {
    if IsExported(r) then Some(ExportTable()[Position(r)]) else None
  }

  lemma NamesDistinct()
    ensures forall i, j :: 0 <= i < j < |Declarations| ==> Declarations[i].reason != Declarations[j].reason
  {
  }

  lemma PositionOfDeclared(i: nat)
    requires i < |Declarations|
    ensures Position(Declarations[i].reason) == i
  {
    NamesDistinct();
  }

  /** The i-th declared reason is exported with code i + 1 and its message. */
  lemma CodesFollowDeclarationOrder(i: nat)
    requires i < |Declarations|
    ensures Exported(Declarations[i].reason) == Some(ErrorCode(i + 1, Declarations[i].message))
  {
    PositionOfDeclared(i);
  }

  /** From NOTHING_IS_PLAYING = 1 to COULD_NOT_QUEUE_REORDER = 15, and every
      exported code lies in between. */
  lemma CodeBounds()
    ensures Exported(NothingIsPlaying) == Some(ErrorCode(1, "Can't play, nothing is playing"))
    ensures Exported(CouldNotQueueReorder) == Some(ErrorCode(15, "Could not reorder queue"))
    ensures forall r :: IsExported(r) ==> 1 <= Exported(r).value.code <= |Declarations|
  {
    CodesFollowDeclarationOrder(0);
    CodesFollowDeclarationOrder(14);
  }

  /** Codes increase strictly with declaration order. */
  lemma CodesIncrease(i: nat, j: nat)
    requires i < j < |Declarations|
    ensures Exported(Declarations[i].reason).value.code < Exported(Declarations[j].reason).value.code
  {
    CodesFollowDeclarationOrder(i);
    CodesFollowDeclarationOrder(j);
  }

  /** No two exported reasons share a code. */
  lemma CodesDistinct(a: Reason, b: Reason)
    requires IsExported(a) && IsExported(b) && a != b
    ensures Exported(a).value.code != Exported(b).value.code
  {
  }

  /** `a.is(b.code)` holds exactly when a and b are the same exported reason. */
  lemma IsIdentifiesReason(a: Reason, b: Reason)
    requires IsExported(a) && IsExported(b)
    ensures Exported(a).value.Is(Exported(b).value.code) <==> a == b
  {
    if a != b {
      CodesDistinct(a, b);
    }
  }

  /** Exactly the two status reasons have no entry in the table. */
  lemma StatusReasonsMissing(r: Reason)
    ensures Exported(r) == None <==> r == CouldNotGetClientStatus || r == CouldNotGetPlayerStatus
  {
    var i := match r
      case NothingIsPlaying => 0
      case CouldNotLaunch => 1
      case CouldNotLoad => 2
      case CouldNotSetVolume => 3
      case CouldNotMute => 4
      case CouldNotUnmute => 5
      case CouldNotSeek => 6
      case CouldNotPause => 7
      case CouldNotPlay => 8
      case CouldNotMutePlayer => 9
      case CouldNotUnmutePlayer => 10
      case CouldNotQueueLoad => 11
      case CouldNotQueueInsert => 12
      case CouldNotQueueRemove => 13
      case _ => 14;
    if !(r == CouldNotGetClientStatus || r == CouldNotGetPlayerStatus) {
      assert Declarations[i].reason == r;
    }
  }
}
