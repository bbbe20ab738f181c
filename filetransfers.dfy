/**
 * The file transfer channel (filetransferchannel.cc): a small event-driven
 * state machine that translates Telepathy-side state changes into calls on
 * the engine's transfer job, and the engine's states and errors into
 * Telepathy (state, reason) pairs. The `m_localAbort` flag tells a transfer
 * the local side stopped from one the remote side aborted.
 */
module FileTransfers {
  import opened Tp
  import opened Xmpp

  /** The D-Bus code of a Tp::FileTransferState. */
  function StateCode(s: FileTransferState): nat {
    match s
    case FtNone => 0
    case FtPending => 1
    case FtAccepted => 2
    case FtOpen => 3
    case FtCompleted => 4
    case FtCancelled => 5
  }

  /** The D-Bus code of a Tp::FileTransferStateChangeReason. */
  function ReasonCode(r: FileTransferReason): nat {
    match r
    case FtReasonNone => 0
    case FtReasonRequested => 1
    case FtReasonLocalStopped => 2
    case FtReasonRemoteStopped => 3
    case FtReasonLocalError => 4
    case FtReasonRemoteError => 5
  }

  /** The state a code names; codes above 5 name none. */
  function StateFromCode(code: nat): (s: Option<FileTransferState>)
    ensures s.Some? <==> code <= 5
    ensures s.Some? ==> StateCode(s.value) == code
  {
    if code == 0 then Some(FtNone)
    else if code == 1 then Some(FtPending)
    else if code == 2 then Some(FtAccepted)
    else if code == 3 then Some(FtOpen)
    else if code == 4 then Some(FtCompleted)
    else if code == 5 then Some(FtCancelled)
    else None
  }

  /** Decoding undoes encoding: every state survives the trip through its code. */
  lemma StateCodeRoundTrip(s: FileTransferState)
    ensures StateFromCode(StateCode(s)) == Some(s)
  {
  }

  /** A cancellation the local side asked for. */
  predicate IsLocalStop(state: nat, reason: nat) {
    state == StateCode(FtCancelled) && reason == ReasonCode(FtReasonLocalStopped)
  }

  /** The calls the channel makes on its transfer job and on its base channel. */
  datatype Call =
    | JobAccept                    // m_transferJob->accept
    | JobAbort                     // m_transferJob->abort
    | RemoteProvideFile            // remoteProvideFile, initial offset 0
    | RemoteAcceptFile(offset: int)
    | WatchProgress                // connecting the job's progress signal

  /** What one callback does: the calls it makes, whether it records a local stop, and whether it reaches Q_ASSERT(0). */
  datatype Reaction = Reaction(calls: seq<Call>, localStop: bool, assertionFailed: bool)

  const Nothing: Reaction := Reaction([], false, false)

  /**
   * `onStateChanged`: accepting an incoming transfer accepts the job and
   * provides the file; a local stop aborts the job and is remembered; the
   * other known states do nothing; an unknown state code is an assertion
   * failure and, with assertions compiled out, does nothing either.
   */
  function TpStateReaction(direction: Direction, state: nat, reason: nat): (r: Reaction)
    ensures r.localStop <==> IsLocalStop(state, reason)
    ensures JobAbort in r.calls <==> r.localStop
    ensures JobAccept in r.calls <==> state == StateCode(FtAccepted) && direction == Incoming
    ensures JobAccept in r.calls ==> r.calls == [JobAccept, RemoteProvideFile]
    ensures state == StateCode(FtAccepted) && direction == Outgoing ==> r == Nothing
    ensures r.localStop ==> r.calls == [JobAbort]
    ensures r.assertionFailed <==> StateFromCode(state).None?
    ensures StateFromCode(state) in {Some(FtNone), Some(FtPending), Some(FtOpen), Some(FtCompleted)} ==> r == Nothing
    ensures state == StateCode(FtCancelled) && !r.localStop ==> r == Nothing
    ensures r.assertionFailed ==> r.calls == [] && !r.localStop
  {
    if state == StateCode(FtAccepted) then
      if direction == Incoming then Reaction([JobAccept, RemoteProvideFile], false, false) else Nothing
    else if state == StateCode(FtCancelled) then
      if reason == ReasonCode(FtReasonLocalStopped) then Reaction([JobAbort], true, false) else Nothing
    else if state <= 5 then Nothing
    else Reaction([], false, true)
  }

  /**
   * `onQxmppTransferStateChanged`: only the transfer state of an outgoing
   * job does anything (it accepts the file remotely at offset 0 and starts
   * watching progress, then falls through to the no-op cases); the offer
   * state is an assertion failure.
   */
  function EngineStateReaction(direction: Direction, s: TransferState): (r: Reaction)
    ensures !r.localStop
    ensures r.assertionFailed <==> s == OfferState
    ensures r.calls != [] <==> s == TransferState && direction == Outgoing
    ensures r.calls != [] ==> r.calls == [RemoteAcceptFile(0), WatchProgress]
    ensures r.assertionFailed ==> r.calls == []
  {
    match s
    case TransferState =>
      if direction == Outgoing then Reaction([RemoteAcceptFile(0), WatchProgress], false, false) else Nothing
    case StartState => Nothing
    case FinishedState => Nothing
    case OfferState => Reaction([], false, true)
  }

  /** What an engine error does to the Telepathy state. */
  datatype ErrorReaction = NoChange | Cancel(reason: FileTransferReason) | ErrorAssertion

  /**
   * `onTransferError`: an abort cancels with RemoteStopped unless the local
   * side stopped the transfer; an access error is a local error; a corrupt
   * file or a protocol error is reported as a remote error. "No error" is an
   * assertion failure.
   */
  function TransferErrorReaction(error: TransferError, localAbort: bool): (r: ErrorReaction)
    ensures r.ErrorAssertion? <==> error == NoTransferError
    ensures error == AbortError ==> (r.Cancel? <==> !localAbort) && (r.Cancel? ==> r.reason == FtReasonRemoteStopped)
    ensures error == FileAccessError ==> r == Cancel(FtReasonLocalError)
    ensures error == FileCorruptError || error == ProtocolError ==> r == Cancel(FtReasonRemoteError)
    ensures r.Cancel? ==> r.reason != FtReasonLocalStopped
    ensures r.NoChange? <==> error == AbortError && localAbort
  {
    match error
    case AbortError => if localAbort then NoChange else Cancel(FtReasonRemoteStopped)
    case FileAccessError => Cancel(FtReasonLocalError)
    case FileCorruptError => Cancel(FtReasonRemoteError)
    case ProtocolError => Cancel(FtReasonRemoteError)
    case NoTransferError => ErrorAssertion
  }

  /**
   * A cancellation set by an engine error comes back through the channel's
   * own state-change signal; because its reason is never LocalStopped, that
   * second pass neither aborts the job nor sets the local-abort flag.
   */
  lemma ErrorCancellationReentryIsInert(direction: Direction, error: TransferError, localAbort: bool)
    requires TransferErrorReaction(error, localAbort).Cancel?
    ensures TpStateReaction(direction, StateCode(FtCancelled), ReasonCode(TransferErrorReaction(error, localAbort).reason)) == Nothing
  {
    var reason := TransferErrorReaction(error, localAbort).reason;
    assert ReasonCode(reason) != ReasonCode(FtReasonLocalStopped);
  }

  /** The events the channel reacts to, in the order they arrive. */
  datatype ChannelEvent =
    | TpStateChanged(state: nat, reason: nat)
    | EngineStateChanged(engineState: TransferState)
    | EngineError(error: TransferError)
    | ProgressChanged(transferred: int)

  /** `m_localAbort` after one event: only a local stop sets it, and nothing resets it. */
  function NextLocalAbort(localAbort: bool, e: ChannelEvent): bool {
    localAbort || (e.TpStateChanged? && IsLocalStop(e.state, e.reason))
  }

  /** `m_localAbort` after a sequence of events. */
  function LocalAbortAfter(localAbort: bool, events: seq<ChannelEvent>): bool
    decreases |events|
  {
    if |events| == 0 then localAbort
    else LocalAbortAfter(NextLocalAbort(localAbort, events[0]), events[1..])
  }

  predicate IsLocalStopEvent(e: ChannelEvent) {
    e.TpStateChanged? && IsLocalStop(e.state, e.reason)
  }

  /**
   * Starting from false (the constructor's value), the flag is set after a
   * sequence of events exactly when one of them was a local stop.
   */
  lemma {:induction false} LocalAbortIffLocalStop(localAbort: bool, events: seq<ChannelEvent>)
    ensures LocalAbortAfter(localAbort, events) <==>
            localAbort || exists i :: 0 <= i < |events| && IsLocalStopEvent(events[i])
    decreases |events|
  {
    if |events| > 0 {
      LocalAbortIffLocalStop(NextLocalAbort(localAbort, events[0]), events[1..]);
      if exists i :: 0 <= i < |events[1..]| && IsLocalStopEvent(events[1..][i]) {
        var i :| 0 <= i < |events[1..]| && IsLocalStopEvent(events[1..][i]);
        assert IsLocalStopEvent(events[i + 1]);
      }
      if exists i :: 0 <= i < |events| && IsLocalStopEvent(events[i]) {
        var i :| 0 <= i < |events| && IsLocalStopEvent(events[i]);
        if i > 0 {
          assert IsLocalStopEvent(events[1..][i - 1]);
        }
      }
    }
  }

  /**
   * Once set, the flag stays set whatever events follow. This is the trace
   * view of `NextLocalAbort`, which only ever ors into the flag; on the
   * channel itself the guarantee comes from the methods' contracts:
   * `OnStateChanged` sets the flag to `NextLocalAbort` of its old value and
   * `OnTransferError` leaves it unchanged.
   */
  lemma {:induction false} LocalAbortNeverResets(events: seq<ChannelEvent>)
    ensures LocalAbortAfter(true, events)
    decreases |events|
  {
    if |events| > 0 {
      LocalAbortNeverResets(events[1..]);
    }
  }

  /**
   * After a local stop, an abort error reported by the engine later in the
   * same channel's life changes nothing: the local cancellation is not
   * overwritten by a remote one.
   */
  lemma AbortAfterLocalStopIsIgnored(events: seq<ChannelEvent>, i: nat, j: nat)
    requires i < j < |events|
    requires IsLocalStopEvent(events[i])
    requires events[j] == EngineError(AbortError)
    ensures TransferErrorReaction(AbortError, LocalAbortAfter(false, events[..j])) == NoChange
  {
    LocalAbortIffLocalStop(false, events[..j]);
    assert events[..j][i] == events[i];
  }

  /** Without a local stop, an engine abort error always cancels with RemoteStopped. */
  lemma AbortWithoutLocalStopIsRemote(events: seq<ChannelEvent>)
    requires forall i :: 0 <= i < |events| ==> !IsLocalStopEvent(events[i])
    ensures TransferErrorReaction(AbortError, LocalAbortAfter(false, events)) == Cancel(FtReasonRemoteStopped)
  {
    LocalAbortIffLocalStop(false, events);
  }

  class FileTransferChannel {
    /** direction(), fixed when the channel is created */
    const direction: Direction
    /** m_localAbort */
    var localAbort: bool
    /** the state and reason last passed to setState */
    var state: FileTransferState
    var stateReason: FileTransferReason
    /** the value last passed to setTransferredBytes */
    var transferredBytes: int
    /** every call made on the transfer job and the base channel, in order */
    var calls: seq<Call>

    /** The local-abort flag starts false; the base channel's initial state is given. */
    constructor (direction: Direction, initialState: FileTransferState, initialReason: FileTransferReason)
      ensures this.direction == direction && !localAbort && calls == []
      ensures state == initialState && stateReason == initialReason && transferredBytes == 0
    {
      this.direction := direction;
      localAbort := false;
      state, stateReason := initialState, initialReason;
      transferredBytes := 0;
      calls := [];
    }

    /** `onStateChanged`: the Telepathy side changed the transfer state. */
    method OnStateChanged(newState: nat, reason: nat) returns (assertionFailed: bool)
      modifies this`localAbort, this`calls
      ensures calls == old(calls) + TpStateReaction(direction, newState, reason).calls
      ensures localAbort == NextLocalAbort(old(localAbort), TpStateChanged(newState, reason))
      ensures assertionFailed == TpStateReaction(direction, newState, reason).assertionFailed
    {
      assertionFailed := false;
      if newState == StateCode(FtAccepted) {
        if direction == Incoming {
          calls := calls + [JobAccept];
          calls := calls + [RemoteProvideFile];
        }
      } else if newState == StateCode(FtCancelled) {
        if reason == ReasonCode(FtReasonLocalStopped) {
          localAbort := true;
          calls := calls + [JobAbort];
        }
      } else if newState == StateCode(FtNone) || newState == StateCode(FtPending)
             || newState == StateCode(FtOpen) || newState == StateCode(FtCompleted) {
      } else {
        assertionFailed := true;
      }
    }

    /** `onQxmppTransferStateChanged`: the engine's job changed state. */
    method OnQxmppTransferStateChanged(s: TransferState) returns (assertionFailed: bool)
      modifies this`calls
      ensures calls == old(calls) + EngineStateReaction(direction, s).calls
      ensures assertionFailed == EngineStateReaction(direction, s).assertionFailed
    {
      assertionFailed := false;
      match s {
        case TransferState =>
          if direction == Outgoing {
            calls := calls + [RemoteAcceptFile(0)];
            calls := calls + [WatchProgress];
          }
        case StartState =>
        case FinishedState =>
        case OfferState =>
          assertionFailed := true;
      }
    }

    /**
     * `setState` of the base channel: records the new state and reason and
     * signals the change, which reaches `onStateChanged`.
     */
    method SetState(newState: FileTransferState, reason: FileTransferReason)
      modifies this`state, this`stateReason, this`localAbort, this`calls
      ensures state == newState && stateReason == reason
      ensures calls == old(calls) + TpStateReaction(direction, StateCode(newState), ReasonCode(reason)).calls
      ensures localAbort == NextLocalAbort(old(localAbort), TpStateChanged(StateCode(newState), ReasonCode(reason)))
    {
      state, stateReason := newState, reason;
      var _ := OnStateChanged(StateCode(newState), ReasonCode(reason));
    }

    /**
     * `onTransferError`: the engine reported an error. A cancellation it sets
     * comes back through `onStateChanged` without further effect, so neither
     * the job calls nor the local-abort flag change.
     */
    method OnTransferError(error: TransferError) returns (assertionFailed: bool)
      modifies this`state, this`stateReason, this`localAbort, this`calls
      ensures var r := TransferErrorReaction(error, old(localAbort));
              && assertionFailed == r.ErrorAssertion?
              && (r.Cancel? ==> state == FtCancelled && stateReason == r.reason)
              && (!r.Cancel? ==> state == old(state) && stateReason == old(stateReason))
      ensures localAbort == old(localAbort) && calls == old(calls)
    {
      assertionFailed := false;
      match error {
        case AbortError =>
          if !localAbort {
            ErrorCancellationReentryIsInert(direction, error, localAbort);
            SetState(FtCancelled, FtReasonRemoteStopped);
          }
        case FileAccessError =>
          ErrorCancellationReentryIsInert(direction, error, localAbort);
          SetState(FtCancelled, FtReasonLocalError);
        case FileCorruptError =>
          ErrorCancellationReentryIsInert(direction, error, localAbort);
          SetState(FtCancelled, FtReasonRemoteError);
        case ProtocolError =>
          ErrorCancellationReentryIsInert(direction, error, localAbort);
          SetState(FtCancelled, FtReasonRemoteError);
        case NoTransferError =>
          assertionFailed := true;
      }
    }

    /** `onOutgoingTransferProgressChanged`: the transferred byte count is the reported one. */
    method OnOutgoingTransferProgressChanged(transferred: int)
      modifies this`transferredBytes
      ensures transferredBytes == transferred
    {
      transferredBytes := transferred;
    }
  }
}
