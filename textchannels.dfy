/**
 * The one-to-one text channel (textchannel.cc): inbound messages become
 * chat-state events, delivery reports and received messages, and a receipt
 * is sent back when one is requested; outbound, messages, chat states and
 * read markers become XMPP messages.
 */
module TextChannels {
  import opened Tp
  import opened Xmpp

  /** A D-Bus variant stored in a message part. */
  datatype Value = Str(s: string) | Num(n: int)

  /** Tp::MessagePart: one part of a Telepathy message, keyed by part field name. */
  type MessagePart = map<string, Value>

  /** The fixed data of a text channel, all set when the channel is created. */
  datatype TextChannel = TextChannel(
    contactHandle: nat,   // m_contactHandle
    contactJid: string,   // m_contactJid
    selfHandle: nat,      // m_selfHandle
    selfJid: string,      // m_selfJid
    selfResource: string) // the client configuration's resource

  /** What the channel does in response to an inbound message, in order. */
  datatype Event =
    | ChatStateChanged(handle: nat, state: ChannelChatState)  // chatStateChanged on the chat-state interface
    | MessageAdded(parts: seq<MessagePart>)                    // addReceivedMessage
    | PacketSent(message: Message)                             // sendPacket on the XMPP client

  /** Inbound chat state (XEP-0085) to Telepathy chat state; "none" has no Telepathy counterpart. */
  function ChatStateToTp(s: ChatState): Option<ChannelChatState> {
    match s
    case NoState => None
    case Active => Some(ChatActive)
    case Composing => Some(ChatComposing)
    case Gone => Some(ChatGone)
    case Inactive => Some(ChatInactive)
    case Paused => Some(ChatPaused)
  }

  /** Outbound mapping of `setChatState`. */
  function ChatStateToXmpp(s: ChannelChatState): ChatState {
    match s
    case ChatActive => Active
    case ChatComposing => Composing
    case ChatGone => Gone
    case ChatInactive => Inactive
    case ChatPaused => Paused
  }

  /** The two mappings are inverse: Telepathy to XMPP and back is the identity. */
  lemma ChatStateRoundTrip(s: ChannelChatState)
    ensures ChatStateToTp(ChatStateToXmpp(s)) == Some(s)
  {
  }

  /** ... and every XMPP chat state but "none" comes back unchanged. */
  lemma ChatStateRoundTripFromXmpp(s: ChatState)
    requires !s.NoState?
    ensures ChatStateToTp(s).Some? && ChatStateToXmpp(ChatStateToTp(s).value) == s
  {
  }

  /** The delivery status a chat marker (XEP-0333) reports. */
  function DeliveryStatusFor(m: Marker): (status: int)
    requires !m.NoMarker?
    ensures status == DeliveryStatusRead <==> m.Acknowledged?
    ensures status == DeliveryStatusDelivered <==> m.Displayed? || m.Received?
  {
    match m
    case Acknowledged => DeliveryStatusRead
    case Displayed => DeliveryStatusDelivered
    case Received => DeliveryStatusDelivered
  }

  /** The header fields every inbound message part list starts from. */
  function BaseHeader(ch: TextChannel, m: Message, nowSeconds: int): MessagePart {
    map[
      "message-token" := Str(m.id),
      "message-sent" := Num(m.stamp),
      "message-received" := Num(nowSeconds),
      "message-sender" := Num(ch.contactHandle),
      "message-sender-id" := Str(ch.contactJid)
    ]
  }

  /**
   * The delivery report as written: the header is copied into the report
   * right after its message type is set and before "delivery-status" is.
   */
  function DeliveryReportAsWritten(header: MessagePart): seq<MessagePart> {
    [header["message-type" := Num(MessageTypeDeliveryReport)]]
  }

  /** The delivery report as intended: the copy is taken once the status is set. */
  function DeliveryReport(header: MessagePart, marker: Marker): (parts: seq<MessagePart>)
    requires !marker.NoMarker?
    ensures |parts| == 1
    ensures "message-type" in parts[0] && parts[0]["message-type"] == Num(MessageTypeDeliveryReport)
    ensures "delivery-status" in parts[0] && parts[0]["delivery-status"] == Num(DeliveryStatusFor(marker))
    ensures forall k :: k in header && k != "message-type" && k != "delivery-status" ==> k in parts[0] && parts[0][k] == header[k]
  {
    [header["message-type" := Num(MessageTypeDeliveryReport)]["delivery-status" := Num(DeliveryStatusFor(marker))]]
  }

  /** As written, a report built from an inbound header carries no delivery status. */
  lemma ReportAsWrittenLacksDeliveryStatus(ch: TextChannel, m: Message, nowSeconds: int)
    ensures "delivery-status" !in DeliveryReportAsWritten(BaseHeader(ch, m, nowSeconds))[0]
  {
  }

  /** The header after the marker block: a marker leaves its message type and delivery status in it. */
  function HeaderAfterMarker(header: MessagePart, marker: Marker): MessagePart {
    if marker.NoMarker? then header
    else header["message-type" := Num(MessageTypeDeliveryReport)]["delivery-status" := Num(DeliveryStatusFor(marker))]
  }

  /** The single text/plain part of a received body. */
  function TextPart(body: string): MessagePart {
    map["content-type" := Str("text/plain"), "content" := Str(body)]
  }

  /** The XMPP address the channel sends to, and the one it sends from. */
  function ContactAddress(ch: TextChannel, lastResource: string): string { ch.contactJid + lastResource }
  function SelfAddress(ch: TextChannel): string { ch.selfJid + "/" + ch.selfResource }

  /**
   * The text of a default-constructed QUuid, the null UUID. Every outbound
   * message of the one-to-one channel takes its id from such a QUuid, so
   * all of them carry this same id.
   */
  const NullUuid: string := "{00000000-0000-0000-0000-000000000000}"

  /**
   * The reply sent back for a message that requests a receipt (XEP-0184):
   * a Received chat marker (XEP-0333) naming the inbound id.
   */
  function ReceiptFor(ch: TextChannel, m: Message, lastResource: string): Message {
    EmptyMessage.(marker := Received, to := ContactAddress(ch, lastResource), from := SelfAddress(ch),
                  markerId := m.id, id := NullUuid)
  }

  /** Receipts answering two different messages carry the same id: only their marker ids differ. */
  lemma ReceiptIdsCoincide(ch: TextChannel, m1: Message, m2: Message, lastResource1: string, lastResource2: string)
    ensures ReceiptFor(ch, m1, lastResource1).id == ReceiptFor(ch, m2, lastResource2).id == NullUuid
    ensures m1.id != m2.id ==> ReceiptFor(ch, m1, lastResource1).markerId != ReceiptFor(ch, m2, lastResource2).markerId
  {
  }

  /** The chat-state event of an inbound message, if it carries a chat state. */
  function ChatStatePart(ch: TextChannel, m: Message): seq<Event> {
    if m.state.NoState? then [] else [ChatStateChanged(ch.contactHandle, ChatStateToTp(m.state).value)]
  }

  /** The delivery report of an inbound message, if it carries a marker. */
  function ReportPart(header: MessagePart, m: Message): seq<Event> {
    if m.marker.NoMarker? then [] else [MessageAdded(DeliveryReport(header, m.marker))]
  }

  /** The Received marker packet, if the inbound message requests a receipt. */
  function ReceiptPart(ch: TextChannel, m: Message, lastResource: string): seq<Event> {
    if m.receiptRequested then [PacketSent(ReceiptFor(ch, m, lastResource))] else []
  }

  /** The received text message, if the body is not empty. */
  function BodyPart(header: MessagePart, m: Message): seq<Event> {
    if m.body == "" then []
    else [MessageAdded([HeaderAfterMarker(header, m.marker)["message-type" := Num(MessageTypeNormal)], TextPart(m.body)])]
  }

  /**
   * Everything `onMessageReceived` emits, in order: the chat-state event,
   * the delivery report, the receipt, and the text message.
   */
  function InboundEvents(ch: TextChannel, m: Message, nowSeconds: int, lastResource: string): seq<Event> {
    var header := BaseHeader(ch, m, nowSeconds);
    ChatStatePart(ch, m) + ReportPart(header, m) + ReceiptPart(ch, m, lastResource) + BodyPart(header, m)
  }

  /** `onMessageReceived`: builds the header field by field and emits the events one after the other. */
  method OnMessageReceived(ch: TextChannel, m: Message, nowSeconds: int, lastResource: string)
    returns (events: seq<Event>)
    ensures events == InboundEvents(ch, m, nowSeconds, lastResource)
  {
    var header: MessagePart := map[];
    header := header["message-token" := Str(m.id)];
    header := header["message-sent" := Num(m.stamp)];
    header := header["message-received" := Num(nowSeconds)];
    header := header["message-sender" := Num(ch.contactHandle)];
    header := header["message-sender-id" := Str(ch.contactJid)];
    ghost var base := header;
    assert base == BaseHeader(ch, m, nowSeconds);

    var chatEvents: seq<Event> := [];
    if !m.state.NoState? {
      var state := ChatActive;
      match m.state {
        case Active => state := ChatActive;
        case Composing => state := ChatComposing;
        case Gone => state := ChatGone;
        case Inactive => state := ChatInactive;
        case Paused => state := ChatPaused;
      }
      chatEvents := [ChatStateChanged(ch.contactHandle, state)];
    }
    assert chatEvents == ChatStatePart(ch, m);

    var reportEvents: seq<Event> := [];
    if !m.marker.NoMarker? {
      header := header["message-type" := Num(MessageTypeDeliveryReport)];
      match m.marker {
        case Acknowledged => header := header["delivery-status" := Num(DeliveryStatusRead)];
        case Displayed => header := header["delivery-status" := Num(DeliveryStatusDelivered)];
        case Received => header := header["delivery-status" := Num(DeliveryStatusDelivered)];
      }
      var partList := [header];
      reportEvents := [MessageAdded(partList)];
    }
    assert header == HeaderAfterMarker(base, m.marker);
    assert reportEvents == ReportPart(base, m);

    var receiptEvents: seq<Event> := [];
    if m.receiptRequested {
      var outMessage := EmptyMessage;
      outMessage := outMessage.(marker := Received);
      outMessage := outMessage.(to := ch.contactJid + lastResource);
      outMessage := outMessage.(from := ch.selfJid + "/" + ch.selfResource);
      outMessage := outMessage.(markerId := m.id);
      outMessage := outMessage.(id := NullUuid);
      receiptEvents := [PacketSent(outMessage)];
    }
    assert receiptEvents == ReceiptPart(ch, m, lastResource);

    var bodyEvents: seq<Event> := [];
    if m.body != "" {
      var text: MessagePart := map[];
      text := text["content-type" := Str("text/plain")];
      text := text["content" := Str(m.body)];
      header := header["message-type" := Num(MessageTypeNormal)];
      var partList := [header, text];
      bodyEvents := [MessageAdded(partList)];
    }
    assert bodyEvents == BodyPart(base, m);

    events := chatEvents + reportEvents + receiptEvents + bodyEvents;
  }

  /** The four kinds of output an inbound message can produce. */
  datatype EventKind = ChatStateEvent | ReportEvent | NormalEvent | PacketEvent

  function KindOf(e: Event): EventKind {
    match e
    case ChatStateChanged(_, _) => ChatStateEvent
    case PacketSent(_) => PacketEvent
    case MessageAdded(parts) =>
      if |parts| > 0 && "message-type" in parts[0] && parts[0]["message-type"] == Num(MessageTypeDeliveryReport)
      then ReportEvent else NormalEvent
  }

  function Count(es: seq<Event>, k: EventKind): nat {
    if |es| == 0 then 0 else (if KindOf(es[0]) == k then 1 else 0) + Count(es[1..], k)
  }

  lemma {:induction false} CountAppend(a: seq<Event>, b: seq<Event>, k: EventKind)
    ensures Count(a + b, k) == Count(a, k) + Count(b, k)
  {
    if |a| > 0 {
      assert (a + b)[1..] == a[1..] + b;
      CountAppend(a[1..], b, k);
    } else {
      assert a + b == b;
    }
  }

  lemma CountAtMostOne(es: seq<Event>, k: EventKind)
    requires |es| <= 1
    ensures Count(es, k) == (if es != [] && KindOf(es[0]) == k then 1 else 0)
  {
    if |es| == 1 {
      assert es[1..] == [];
    }
  }

  /** The count of a kind over four pieces of at most one event each. */
  lemma CountOfParts(a: seq<Event>, b: seq<Event>, c: seq<Event>, d: seq<Event>, k: EventKind)
    requires |a| <= 1 && |b| <= 1 && |c| <= 1 && |d| <= 1
    ensures Count(a + b + c + d, k) ==
            (if a != [] && KindOf(a[0]) == k then 1 else 0) + (if b != [] && KindOf(b[0]) == k then 1 else 0) +
            (if c != [] && KindOf(c[0]) == k then 1 else 0) + (if d != [] && KindOf(d[0]) == k then 1 else 0)
  {
    CountAppend(a, b, k);
    CountAppend(a + b, c, k);
    CountAppend(a + b + c, d, k);
    CountAtMostOne(a, k);
    CountAtMostOne(b, k);
    CountAtMostOne(c, k);
    CountAtMostOne(d, k);
  }

  /**
   * Exactly one chat-state event when the message carries a chat state,
   * exactly one delivery report when it carries a marker, exactly one packet
   * (the receipt) when a receipt is requested, and exactly one normal message
   * when the body is not empty.
   */
  lemma InboundEventCounts(ch: TextChannel, m: Message, nowSeconds: int, lastResource: string)
    ensures var es := InboundEvents(ch, m, nowSeconds, lastResource);
            && Count(es, ChatStateEvent) == (if m.state.NoState? then 0 else 1)
            && Count(es, ReportEvent) == (if m.marker.NoMarker? then 0 else 1)
            && Count(es, PacketEvent) == (if m.receiptRequested then 1 else 0)
            && Count(es, NormalEvent) == (if m.body == "" then 0 else 1)
  {
    var header := BaseHeader(ch, m, nowSeconds);
    var a, b := ChatStatePart(ch, m), ReportPart(header, m);
    var c, d := ReceiptPart(ch, m, lastResource), BodyPart(header, m);
    assert a != [] ==> KindOf(a[0]) == ChatStateEvent;
    assert b != [] ==> KindOf(b[0]) == ReportEvent;
    assert c != [] ==> KindOf(c[0]) == PacketEvent;
    assert d != [] ==> KindOf(d[0]) == NormalEvent;
    CountOfParts(a, b, c, d, ChatStateEvent);
    CountOfParts(a, b, c, d, ReportEvent);
    CountOfParts(a, b, c, d, PacketEvent);
    CountOfParts(a, b, c, d, NormalEvent);
  }

  /**
   * What the events carry: the chat-state event names the contact and the
   * state of the same name; the receipt answers the inbound id; the text
   * message holds the body in one text/plain part, after the report.
   */
  lemma InboundEventContents(ch: TextChannel, m: Message, nowSeconds: int, lastResource: string)
    ensures var es := InboundEvents(ch, m, nowSeconds, lastResource);
            && (!m.state.NoState? ==> es[0] == ChatStateChanged(ch.contactHandle, ChatStateToTp(m.state).value))
            && (m.receiptRequested ==>
                  exists i :: 0 <= i < |es| && es[i].PacketSent? &&
                    es[i].message.marker == Received && es[i].message.markerId == m.id &&
                    es[i].message.to == ch.contactJid + lastResource)
            && (m.body != "" ==>
                  es[|es| - 1].MessageAdded? && |es[|es| - 1].parts| == 2 &&
                  es[|es| - 1].parts[1] == TextPart(m.body) &&
                  es[|es| - 1].parts[0]["message-type"] == Num(MessageTypeNormal))
            && (!m.marker.NoMarker? && m.body != "" ==>
                  exists i :: 0 <= i < |es| - 1 && KindOf(es[i]) == ReportEvent)
  {
    var es := InboundEvents(ch, m, nowSeconds, lastResource);
    var header := BaseHeader(ch, m, nowSeconds);
    var a, b := ChatStatePart(ch, m), ReportPart(header, m);
    var c, d := ReceiptPart(ch, m, lastResource), BodyPart(header, m);
    assert es == a + b + c + d;
    if m.receiptRequested {
      assert es[|a| + |b|] == c[0];
    }
    if !m.marker.NoMarker? && m.body != "" {
      assert es[|a|] == b[0];
      assert KindOf(b[0]) == ReportEvent;
    }
  }

  /** A part `sendMessage` takes its text from: text/plain content type and a content field. */
  predicate IsPlainTextPart(p: MessagePart) {
    "content-type" in p && ToText(p["content-type"]) == "text/plain" && "content" in p
  }

  /** Part `i` is the first part `sendMessage` takes its text from. */
  predicate IsFirstPlainTextPart(parts: seq<MessagePart>, i: int) {
    0 <= i < |parts| && IsPlainTextPart(parts[i]) && forall j :: 0 <= j < i ==> !IsPlainTextPart(parts[j])
  }

  /** QVariant::toString for the two variant kinds. */
  function ToText(v: Value): string {
    match v
    case Str(s) => s
    case Num(n) => if n < 0 then "-" + Digits(-n) else Digits(n)
  }

  function Digits(n: nat): string
    decreases n
  {
    var d := ["0", "1", "2", "3", "4", "5", "6", "7", "8", "9"][n % 10];
    if n < 10 then d else Digits(n / 10) + d
  }

  /** True when the flags ask for delivery or read reports. */
  predicate WantsReports(flags: bv32) {
    flags & (FlagReportDelivery | FlagReportRead) != 0
  }

  /**
   * `sendMessage`: the body is the content of the first text/plain part
   * with content, or empty; a receipt and the markable flag are requested
   * exactly when the flags ask for delivery or read reports.
   */
  method SendMessage(ch: TextChannel, parts: seq<MessagePart>, flags: bv32, lastResource: string)
    returns (sentToken: string, packet: Message)
    ensures sentToken == NullUuid
    ensures packet == EmptyMessage.(to := ContactAddress(ch, lastResource), from := SelfAddress(ch), id := NullUuid,
                                    receiptRequested := WantsReports(flags), markable := WantsReports(flags),
                                    body := packet.body)
    ensures packet.to == ContactAddress(ch, lastResource) && packet.from == SelfAddress(ch)
    ensures packet.receiptRequested == WantsReports(flags) && packet.markable == WantsReports(flags)
    ensures (forall i :: 0 <= i < |parts| ==> !IsPlainTextPart(parts[i])) ==> packet.body == ""
    ensures forall i :: IsFirstPlainTextPart(parts, i) ==> packet.body == ToText(parts[i]["content"])
  {
    var message := EmptyMessage;
    message := message.(to := ch.contactJid + lastResource);
    message := message.(from := ch.selfJid + "/" + ch.selfResource);
    var messageToken := NullUuid;
    message := message.(id := messageToken);
    if flags & (FlagReportDelivery | FlagReportRead) != 0 {
      message := message.(receiptRequested := true, markable := true);
    }
    var content := "";
    var i := 0;
    while i < |parts|
      invariant 0 <= i <= |parts|
      invariant forall j :: 0 <= j < i ==> !IsPlainTextPart(parts[j])
      invariant content == ""
    {
      var part := parts[i];
      if IsPlainTextPart(part) {
        content := ToText(part["content"]);
        assert IsFirstPlainTextPart(parts, i);
        break;
      }
      i := i + 1;
    }
    message := message.(body := content);
    return messageToken, message;
  }

  /** The Tp::ChannelChatState codes `setChatState` receives. */
  function ChatStateCode(s: ChannelChatState): nat {
    match s
    case ChatGone => 0
    case ChatInactive => 1
    case ChatActive => 2
    case ChatPaused => 3
    case ChatComposing => 4
  }

  /** The chat state a code names; codes above 4 name none. */
  function ChatStateFromCode(code: nat): (r: Option<ChannelChatState>)
    ensures r.Some? <==> code <= 4
    ensures r.Some? ==> ChatStateCode(r.value) == code
  {
    if code == 0 then Some(ChatGone)
    else if code == 1 then Some(ChatInactive)
    else if code == 2 then Some(ChatActive)
    else if code == 3 then Some(ChatPaused)
    else if code == 4 then Some(ChatComposing)
    else None
  }

  /** Every chat state's code names that state again. */
  lemma ChatStateCodeRoundTrip(s: ChannelChatState)
    ensures ChatStateFromCode(ChatStateCode(s)) == Some(s)
  {
  }

  /**
   * `setChatState`: a message carrying the XMPP chat state of the same name.
   * A code naming no chat state reaches the assertion; with assertions
   * compiled out the message is still sent, without a chat state.
   */
  method SetChatState(ch: TextChannel, state: nat, lastResource: string)
    returns (packet: Message, assertionFailed: bool)
    ensures assertionFailed <==> ChatStateFromCode(state).None?
    ensures !assertionFailed ==> ChatStateToTp(packet.state) == ChatStateFromCode(state)
    ensures assertionFailed ==> packet.state.NoState?
    ensures packet == EmptyMessage.(state := packet.state, to := ContactAddress(ch, lastResource),
                                    from := SelfAddress(ch), id := NullUuid)
  {
    var messageToken := NullUuid;
    var message := EmptyMessage;
    assertionFailed := false;
    if state == 0 {
      message := message.(state := Gone);
    } else if state == 1 {
      message := message.(state := Inactive);
    } else if state == 2 {
      message := message.(state := Active);
    } else if state == 3 {
      message := message.(state := Paused);
    } else if state == 4 {
      message := message.(state := Composing);
    } else {
      assertionFailed := true;
    }
    message := message.(to := ch.contactJid + lastResource);
    message := message.(from := ch.selfJid + "/" + ch.selfResource);
    message := message.(id := messageToken);
    packet := message;
  }

  /** `messageAcknowledged`: a Displayed marker (XEP-0333) for the acknowledged message id. */
  method MessageAcknowledged(ch: TextChannel, messageId: string, lastResource: string)
    returns (packet: Message)
    ensures packet == EmptyMessage.(marker := Displayed, markerId := messageId, to := ContactAddress(ch, lastResource),
                                    from := SelfAddress(ch), id := NullUuid)
  {
    var messageToken := NullUuid;
    var message := EmptyMessage;
    message := message.(marker := Displayed);
    message := message.(to := ch.contactJid + lastResource);
    message := message.(from := ch.selfJid + "/" + ch.selfResource);
    message := message.(id := messageToken);
    message := message.(markerId := messageId);
    packet := message;
  }
}
