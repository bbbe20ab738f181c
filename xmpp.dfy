/**
 * The values the XMPP engine (QXmpp) hands to the connection manager and
 * accepts from it. Only the fields the core reads or writes are kept.
 */
module Xmpp {

  /** QXmppPresence::Type */
  datatype PresenceType =
    | PresError | PresAvailable | PresUnavailable
    | PresSubscribe | PresSubscribed | PresUnsubscribe | PresUnsubscribed | PresProbe

  /**
   * QXmppPresence::AvailableStatusType, the `<show/>` values of section
   * 4.7.2.1 of RFC 6121 plus "online" (no `<show/>`) and "invisible".
   */
  datatype AvailableStatusType = Online | Away | XA | DND | Chat | Invisible

  /** The enumeration's numeric code; `toTpPresence` compares these codes. */
  function StatusCode(s: AvailableStatusType): (c: nat)
    ensures c < 6
  {
    match s
    case Online => 0
    case Away => 1
    case XA => 2
    case DND => 3
    case Chat => 4
    case Invisible => 5
  }

  datatype Presence = Presence(kind: PresenceType, status: AvailableStatusType, statusText: string)

  /** `QXmppPresence(QXmppPresence::Error)`: the status type and text keep their defaults. */
  const ErrorPresence: Presence := Presence(PresError, Online, "")

  /** QXmppMessage::Type */
  datatype MessageType = MsgError | MsgNormal | MsgChat | MsgGroupChat | MsgHeadline

  /** QXmppMessage::State: chat states of XEP-0085, section 2, plus "none". */
  datatype ChatState = NoState | Active | Inactive | Gone | Composing | Paused

  /** QXmppMessage::Marker: chat markers of XEP-0333 plus "none". */
  datatype Marker = NoMarker | Received | Displayed | Acknowledged

  /** QXmppMessage, reduced to the fields the channels use. */
  datatype Message = Message(
    kind: MessageType,
    from: string,
    to: string,
    id: string,
    stamp: int,
    body: string,
    state: ChatState,
    marker: Marker,
    markerId: string,
    receiptRequested: bool,
    markable: bool,
    mucInvitationJid: string,
    mucInvitationReason: string)

  /** A default-constructed QXmppMessage (its type defaults to Chat). */
  const EmptyMessage: Message := Message(MsgChat, "", "", "", 0, "", NoState, NoMarker, "", false, false, "", "")

  /** QXmppRosterIq::Item::SubscriptionType, the values of section 2.1.2.5 of RFC 6121 plus two engine extras. */
  datatype Subscription = SubNone | SubFrom | SubTo | SubBoth | SubRemove | SubNotSet

  /** QXmppClient::Error and the one stream condition `onError` inspects. */
  datatype ClientError = NoError | SocketError | KeepAliveError | XmppStreamError

  /** The enumerators' numeric codes, as they behave when used as a truth value. */
  function ClientErrorCode(e: ClientError): nat {
    match e
    case NoError => 0
    case SocketError => 1
    case KeepAliveError => 2
    case XmppStreamError => 3
  }
  datatype StreamCondition = NotAuthorized | OtherCondition

  /** QXmppTransferJob::State and QXmppTransferJob::Error */
  datatype TransferState = OfferState | StartState | TransferState | FinishedState
  datatype TransferError = NoTransferError | AbortError | FileAccessError | FileCorruptError | ProtocolError
}
