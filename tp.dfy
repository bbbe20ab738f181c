/**
 * Telepathy-side vocabulary shared by the connection manager: result
 * wrappers, the D-Bus error names it raises, and the Telepathy enumerations
 * that its callbacks take and return. Numeric codes are those of the
 * Telepathy D-Bus specification where the model needs them as values.
 */
module Tp {

  datatype Option<+T> = None | Some(value: T)

  /** The D-Bus errors the modelled operations set on their `Tp::DBusError` out-parameter. */
  datatype Error =
    | Disconnected      // TP_QT_ERROR_DISCONNECTED
    | InvalidArgument   // TP_QT_ERROR_INVALID_ARGUMENT
    | InvalidHandle     // TP_QT_ERROR_INVALID_HANDLE

  /** A callback either fills its error out-parameter or returns a value. */
  datatype Result<+T> = Ok(value: T) | Err(error: Error)

  /** Tp::HandleType codes; only contact handles are supported by this connection. */
  const HandleTypeNone: nat := 0
  const HandleTypeContact: nat := 1
  const HandleTypeRoom: nat := 2

  /** Tp::ConnectionPresenceType */
  datatype ConnectionPresenceType =
    | PresenceUnset | PresenceOffline | PresenceAvailable | PresenceAway
    | PresenceExtendedAway | PresenceHidden | PresenceBusy | PresenceUnknown | PresenceError

  /** Tp::SimplePresence: the (type, status keyword, message) triple reported on D-Bus. */
  datatype SimplePresence = SimplePresence(kind: ConnectionPresenceType, status: string, statusMessage: string)

  /** Tp::SubscriptionState */
  datatype SubscriptionState = SubUnknown | SubNo | SubRemovedRemotely | SubAsk | SubYes

  /** Tp::ConnectionStatus and Tp::ConnectionStatusReason */
  datatype ConnectionStatus = StatusConnected | StatusConnecting | StatusDisconnected
  datatype ConnectionStatusReason =
    | ReasonNoneSpecified | ReasonRequested | ReasonNetworkError | ReasonAuthenticationFailed

  /** Tp::ChannelChatState */
  datatype ChannelChatState = ChatGone | ChatInactive | ChatActive | ChatPaused | ChatComposing

  /** Tp::ChannelTextMessageType and Tp::DeliveryStatus codes stored in message headers. */
  const MessageTypeNormal: int := 0
  const MessageTypeDeliveryReport: int := 4
  const DeliveryStatusDelivered: int := 1
  const DeliveryStatusRead: int := 5

  /** Tp::MessageSendingFlag bits. */
  const FlagReportDelivery: bv32 := 1
  const FlagReportRead: bv32 := 2

  /** Tp::FileTransferState and Tp::FileTransferStateChangeReason */
  datatype FileTransferState = FtNone | FtPending | FtAccepted | FtOpen | FtCompleted | FtCancelled
  datatype FileTransferReason =
    | FtReasonNone | FtReasonRequested | FtReasonLocalStopped | FtReasonRemoteStopped
    | FtReasonLocalError | FtReasonRemoteError

  /** Direction of a file transfer channel, fixed when the channel is created. */
  datatype Direction = Incoming | Outgoing
}
