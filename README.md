# telepathy-nonsense core, modelled in Dafny

telepathy-nonsense is a Telepathy connection manager for XMPP built on
QXmpp. This project models the part of it that decides things, apart from
the D-Bus host and the XMPP engine:

- `handles.dfy` (module `Handles`): the `UniqueHandleMap`, the
  append-only list of bare JIDs in which a JID's handle is its position
  plus one. It is a class whose forward lookup appends in place.
- `presences.dfy` (module `Presences`): `toTpPresence`, which folds the
  presences of all resources of a contact into one Telepathy presence, and
  the status keyword table `setPresence` parses. The presence values are
  the `<show/>` values of section 4.7.2.1 of RFC 6121.
- `connections.dfy` (module `Connections`): the `Connection` class.
  It covers `setPresence`, `inspectHandles`, `requestHandles`,
  `createChannel` (validation and target resolution),
  `getKnownAvatarTokens`, `removeContacts` and `onError`. It also holds
  the roster subscription mapping of `getContactAttributes`, whose values
  are those of section 2.1.2.5 of RFC 6121.
- `textchannels.dfy` (module `TextChannels`): the one-to-one text
  channel. Inbound messages become chat-state events (XEP-0085, section 2),
  delivery reports (XEP-0333 chat markers), a Received chat marker
  (XEP-0333) sent back when a receipt (XEP-0184) is requested, and
  received messages. Outbound it covers `sendMessage`, `setChatState` and
  `messageAcknowledged`.
- `mucchannels.dfy` (module `MucChannels`): the room text channel. It
  covers the sender check and echo suppression over `m_sentIds`, direct
  invitations (XEP-0249, section 2) and the member list rebuilt from the
  room's participants.
- `filetransfers.dfy` (module `FileTransfers`): the file transfer channel's
  state machine over `m_localAbort`.
- `common.dfy` (module `Common`): the fixed status table and avatar
  requirements.
- `tp.dfy`, `xmpp.dfy`: the Telepathy and QXmpp enumerations and values
  the core reads and writes.

Calls into code outside the model are recorded as outputs or taken as
parameters:
- packets sent, job calls and channel events are recorded outputs;
- whether the client object exists and is connected, the engine's own
  presence, the current time and the room channel's generated message ids
  are parameters;
- `lastResourceForJid` and `jidToBareJid` results are parameters too.

`Q_ASSERT(0)` is modelled as an `assertionFailed` result. The code after
it still runs, as in a release build.

Where the code departs from Telepathy's own contract, the model follows
the code:
- Telepathy reserves handle 0 as invalid. The reverse lookup lets it
  through and reads position -1; see Findings.
- The Requests interface also allows room handle types. `createChannel`
  accepts only contact handles; every other type, rooms included, is
  InvalidArgument.
- Telepathy treats an unresolvable TargetID as an invalid handle with no
  effect. The code allocates a handle for it (even for the empty string)
  before refusing it.
- Telepathy expects mutating operations to fail without effect when
  disconnected. `removeContacts` sets Disconnected and, when the client
  object exists, still removes every contact. Before the first connection
  attempt there is no client object, and a non-empty handle list
  dereferences the null client.
- Every outbound message, Received marker, Displayed marker and chat-state
  message of the one-to-one channel takes its id from a default-constructed
  QUuid, so all of them carry the null UUID, and `sendMessage` returns that
  same token every time. Only the room channel generates fresh ids.

## Model

| member | source | states |
|---|---|---|
| `Common.StatusSpecMap` | common.cc:25-77 | The table has exactly the keys offline, available, away, xa, dnd, chat, hidden, unknown; only "unknown" may not be set on self; only "offline" and "unknown" cannot carry a message |
| `Common.StatusTableHasEightEntries` | common.cc:67-75 | The status table has exactly eight entries |
| `Common.StatusTypesDistinctExceptChat` | common.cc:32-60 | Two distinct statuses share a presence type exactly when they are "available" and "chat" |
| `Common.AvatarRequirements` | common.cc:79-89 | PNG and JPEG; max 512x512, recommended 256x256, minimum 0; at most 1048576 bytes |
| `Handles.IndexOf` | uniquehandlemap.cc:31 | The first position of the JID, or -1 exactly when it is absent |
| `Handles.UniqueHandleMap.constructor` | uniquehandlemap.cc:16-19 | A new registry is empty and has no duplicates |
| `Handles.UniqueHandleMap.Identifier` | uniquehandlemap.cc:21-27 | Reverse lookup: a non-empty result is the entry at position handle-1; handles beyond the size give "" and change nothing |
| `Handles.UniqueHandleMap.HandleFor` | uniquehandlemap.cc:29-38 | Forward lookup: the list grows only by the new JID, keeps no duplicates, and the returned handle names the JID |
| `Handles.HandleZeroReadsOutsideList` | uniquehandlemap.cc:23-26 | Handle 0 passes the range check and the lookup then reads outside the list |
| `Handles.IdentifierAgreesAwayFromZero` | uniquehandlemap.cc:21-27 | For every handle from 1 up the corrected reverse lookup agrees with the code |
| `Handles.LookupKnownIsStable` | uniquehandlemap.cc:31-34 | Looking up a known JID returns its existing handle and leaves the list unchanged |
| `Handles.LookupUnseenAppends` | uniquehandlemap.cc:36-37 | An unseen JID is appended and its handle is the new list length (old size + 1) |
| `Handles.RoundTrip` | uniquehandlemap.cc:21-38 | The reverse lookup of the handle returned for a JID is that JID |
| `Handles.LookupIdempotent` | uniquehandlemap.cc:29-38 | Looking up the same JID again gives the same handle and does not change the list |
| `Handles.AllocatePreservesNoDuplicates` | uniquehandlemap.cc:29-38 | The forward lookup keeps the list free of duplicates |
| `Handles.DistinctJidsDistinctHandles` | uniquehandlemap.cc:29-38 | Over a duplicate-free list distinct JIDs have distinct handles |
| `Handles.HandleOfIdentifier` | uniquehandlemap.cc:21-38 | Each handle from 1 to the size names exactly one JID, whose forward lookup is that handle |
| `Handles.AllocateKeepsOldHandles` | uniquehandlemap.cc:36 | Appending never changes what an existing handle names |
| `Handles.ExtensionKeepsOldHandles` | uniquehandlemap.cc:21-37 | Any extension of the list keeps every existing handle and what it names |
| `Handles.AllocateAllExtends` | uniquehandlemap.cc:29-38 | A series of lookups keeps the old list as a prefix, adds at most one entry per JID, contains every JID and keeps no duplicates |
| `Presences.Translate` | connection.cc:393-427 | Only an available winner is non-offline; the message is the winner's text; every reported (type, status) pair is an entry of the status table |
| `Presences.ToTpPresence` | connection.cc:375-430 | With no non-error entry the result is offline with an empty message; otherwise the earliest entry with the lowest status code wins, error entries skipped, and its translation is reported |
| `Presences.WinnerUnique` | connection.cc:384-391 | The fold's rule selects at most one entry |
| `Presences.OnlineResourceBeatsAwayResource` | connection.cc:384-391 | An Away resource and an Online resource aggregate to "available" |
| `Presences.UnavailableEntryCanHideAvailableOne` | connection.cc:384-395 | The comparison ignores the presence type, so an unavailable entry with a lower code makes the contact offline |
| `Presences.StatusTypeForKeyword` | connection.cc:234-247 | Exactly available, away, xa, dnd, chat and hidden are accepted, and each maps to the status type reported under that keyword |
| `Presences.KeywordRoundTrip` | connection.cc:234-245 | Reporting a status type and parsing the keyword back gives the same status type |
| `Presences.SetThenReportSameKeyword` | connection.cc:397-421 | A single available presence with the status type set from a keyword is reported under that keyword, with the table's type |
| `Presences.SettableKeywordsAreAccepted` | connection.cc:234-247 | Every status the table lets the user set is accepted by the parser, except "offline" |
| `Connections.CreateChannelOutcome` | connection.cc:583-616 | A non-contact type is InvalidArgument; TargetHandle takes precedence over TargetID; an empty resolved ID is InvalidHandle; a TargetID is allocated a handle; a created channel's handle and ID agree |
| `Connections.RoomTargetsAreRefused` | connection.cc:592-608 | A room target handle type is InvalidArgument and allocates nothing |
| `Connections.RequestByIdThenByHandleAgree` | connection.cc:595-601 | Requesting by TargetID and then by the handle it received gives the same channel target |
| `Connections.EmptyTargetIdIsAllocatedThenRefused` | connection.cc:598-616 | An empty TargetID is refused with InvalidHandle after a handle has been allocated for it |
| `Connections.SubscriptionStates` | connection.cc:329-352 | None->(No,No), From->(No,Yes), To->(Yes,No), Both->(Yes,Yes), NotSet->(Unknown,Unknown), Remove->nothing, following RFC 6121's meaning of each value |
| `Connections.ContactListAttributesFor` | connection.cc:300-352 | The self contact is subscribed both ways; a roster contact gets its entry's states; other JIDs get no attributes |
| `Connections.StatusReasonAsWritten` | connection.cc:201-216 | The condition as written: its right operand is a non-zero constant |
| `Connections.AuthenticationFailureReportedAsNetworkError` | connection.cc:206 | As written, every error, even a not-authorized stream error, is reported as a network error |
| `Connections.StatusReasonForError` | connection.cc:201-216 | Intended mapping: socket and keep-alive errors are network errors; a stream error is an authentication failure exactly when not-authorized; NoError is an assertion failure |
| `Connections.Connection.SetPresence` | connection.cc:225-256 | The six keywords set their status type and others fail the assertion; the message is stored; the presence is sent when connected; the returned self handle names the account's JID |
| `Connections.Connection.InspectHandles` | connection.cc:454-481 | Disconnected first, then InvalidArgument for non-contact types, then InvalidHandle exactly when some handle names no JID; otherwise one JID per handle, in order |
| `Connections.Connection.RequestHandles` | connection.cc:483-499 | A non-contact type is InvalidArgument and allocates nothing; otherwise one handle per identifier, in order, each naming its identifier; the self handle keeps naming the account |
| `Connections.Connection.CreateChannel` | connection.cc:583-628 | The live registry and the result are exactly those of `CreateChannelOutcome`; the self handle keeps naming the account |
| `Connections.Connection.MessageChannelRequest` | connection.cc:630-646 | An inbound message asks for a text channel targeting, and initiated by, the sender's bare-JID handle, and that request resolves to the sender; the self handle keeps naming the account |
| `Connections.Connection.GetKnownAvatarTokens` | connection.cc:692-711 | A pending error or a disconnected client returns an error; otherwise exactly the queried handles with a non-empty token, with that token; lookups insert empty tokens and change no existing one |
| `Connections.Connection.RemoveContacts` | connection.cc:518-536 | A pending error returns at once; without a connected client Disconnected is set but the call goes on; with a client object, one removal entry and one roster removal per handle, with its JID; with no client object, a non-empty list dereferences the null client |
| `Connections.Connection.OnError` | connection.cc:201-216 | The connection becomes disconnected with the intended reason; NoError fails the assertion and changes nothing |
| `TextChannels.ChatStateRoundTrip` | textchannel.cc:187-205 | Telepathy chat state to XMPP and back is the identity on the five states |
| `TextChannels.ChatStateRoundTripFromXmpp` | textchannel.cc:98-113 | Every XMPP chat state but "none" maps to the Telepathy state of the same name and back |
| `TextChannels.DeliveryStatusFor` | textchannel.cc:126-136 | Acknowledged is Read; Displayed and Received are Delivered |
| `TextChannels.DeliveryReport` | textchannel.cc:121-138 | Intended report: one part with type delivery-report, the marker's delivery status and the rest of the header |
| `TextChannels.ReportAsWrittenLacksDeliveryStatus` | textchannel.cc:122-132 | As written, the report is copied before its delivery status is set, so it carries none |
| `TextChannels.OnMessageReceived` | textchannel.cc:86-166 | The events emitted are the chat-state event, the delivery report, the Received marker answering a receipt request, and the text message, in that order |
| `TextChannels.InboundEventCounts` | textchannel.cc:96-165 | Exactly one chat-state event iff a state is present, one report iff a marker is, one Received marker packet iff a receipt is requested, one normal message iff the body is non-empty |
| `TextChannels.InboundEventContents` | textchannel.cc:117-165 | The chat-state event names the contact; the receipt is a Received marker for the inbound id; the body is one text/plain part, after any report |
| `TextChannels.ReceiptIdsCoincide` | textchannel.cc:140-150 | Received markers answering messages with different ids carry different marker ids but the same null UUID as their own id |
| `TextChannels.SendMessage` | textchannel.cc:57-84 | The body is the content of the first text/plain part with content, or empty; a receipt and markable flag are requested iff delivery or read reports are; the id and the returned token are the null UUID; every other field keeps the default of a new message |
| `TextChannels.ChatStateFromCode` | textchannel.cc:187-204 | Exactly the codes 0 to 4 name a chat state, and each names the state with that code |
| `TextChannels.ChatStateCodeRoundTrip` | textchannel.cc:187-204 | Every chat state's code names that state again |
| `TextChannels.SetChatState` | textchannel.cc:181-211 | A code naming a chat state gives a message carrying the XMPP chat state of the same name; any other code fails the assertion and the message is still sent without a chat state; no body or marker; the id is the null UUID; every other field keeps the default of a new message |
| `TextChannels.MessageAcknowledged` | textchannel.cc:168-179 | A Displayed marker for the acknowledged message id, with the null UUID as its own id; every other field keeps the default of a new message |
| `MucChannels.RemoveOne` | muctextchannel.cc:113-114 | Removal changes nothing for an absent id and shortens the list by one otherwise |
| `MucChannels.RemoveOneCounts` | muctextchannel.cc:114 | Removal takes away exactly one occurrence of the id and leaves all other ids |
| `MucChannels.RemoveOneRemovesFirst` | muctextchannel.cc:114 | The occurrence removed is the first; the rest keeps its order |
| `MucChannels.EchoConsumesOneOccurrence` | muctextchannel.cc:113-117 | An echo consumes one remembered occurrence of its id and no other id |
| `MucChannels.SentOnceEchoedTwice` | muctextchannel.cc:113-117 | An id sent once and echoed twice is suppressed the first time and processed the second |
| `MucChannels.ChatStateMessagesAreNotRemembered` | muctextchannel.cc:151-155 | A message refused for its chat state is not remembered |
| `MucChannels.MembersRecogniseExactlyParticipants` | muctextchannel.cc:106-111 | A member list rebuilt from the participants recognises exactly the participants as senders |
| `MucChannels.MucTextChannel.SenderHandle` | muctextchannel.cc:106 | The member handle whose identifier is the sender, or 0 exactly when no member has it |
| `MucChannels.MucTextChannel.OnMessageReceived` | muctextchannel.cc:104-120 | Non-members are dropped before the echo check with `m_sentIds` unchanged; a remembered id is an echo and one occurrence is removed; anything else is processed as sent by the member |
| `MucChannels.MucTextChannel.SendQXmppMessage` | muctextchannel.cc:149-159 | A chat-state message is refused and not remembered; any other is remembered, sent as group chat, and the send path's verdict returned |
| `MucChannels.MucTextChannel.AddMembers` | muctextchannel.cc:71-97 | All-or-nothing: InvalidHandle with no invitation if any handle names no JID; otherwise one invitation per handle, in order, with the room and reason; each invitation is a new message with only its type, recipient, id, room and reason set |
| `MucChannels.MucTextChannel.OnMucParticipantsChanged` | muctextchannel.cc:132-147 | The members become one handle per participant, in order, each naming its participant |
| `FileTransfers.TpStateReaction` | filetransferchannel.cc:66-90 | Accepted accepts the job and provides the file only for Incoming; Cancelled aborts and records a local stop only for LocalStopped; None/Pending/Open/Completed do nothing; other codes fail the assertion |
| `FileTransfers.EngineStateReaction` | filetransferchannel.cc:93-110 | Only the transfer state of an Outgoing job acts: remote accept at offset 0, then watch progress; the offer state fails the assertion |
| `FileTransfers.TransferErrorReaction` | filetransferchannel.cc:112-131 | AbortError cancels with RemoteStopped unless aborted locally; FileAccessError is LocalError; FileCorruptError and ProtocolError are RemoteError; never LocalStopped |
| `FileTransfers.ErrorCancellationReentryIsInert` | filetransferchannel.cc:76-81 | A cancellation set by an engine error that comes back through the state-change signal neither aborts nor sets the local-abort flag |
| `FileTransfers.LocalAbortIffLocalStop` | filetransferchannel.cc:76-81 | Starting from false, `m_localAbort` is set after a series of events exactly when one of them was a local stop |
| `FileTransfers.LocalAbortNeverResets` | filetransferchannel.cc:78 | Once set, `m_localAbort` stays set over any sequence of events; each step is `NextLocalAbort`, as `OnStateChanged` and `OnTransferError` ensure |
| `FileTransfers.AbortAfterLocalStopIsIgnored` | filetransferchannel.cc:115-119 | An engine AbortError after a local stop changes nothing |
| `FileTransfers.AbortWithoutLocalStopIsRemote` | filetransferchannel.cc:115-119 | Without a local stop, an engine AbortError cancels with RemoteStopped |
| `FileTransfers.FileTransferChannel.constructor` | filetransferchannel.cc:25-26 | `m_localAbort` starts false and no job call has been made |
| `FileTransfers.FileTransferChannel.OnStateChanged` | filetransferchannel.cc:66-90 | The calls made and the new flag are those of `TpStateReaction` |
| `FileTransfers.FileTransferChannel.OnQxmppTransferStateChanged` | filetransferchannel.cc:93-110 | The calls made are those of `EngineStateReaction` |
| `FileTransfers.FileTransferChannel.OnTransferError` | filetransferchannel.cc:112-131 | The state and reason become the cancellation `TransferErrorReaction` chooses, if any; the job calls and the local-abort flag do not change |
| `FileTransfers.FileTransferChannel.OnOutgoingTransferProgressChanged` | filetransferchannel.cc:133-136 | The transferred byte count becomes exactly the reported value |

## Findings

| source | as written | input that shows it | evidently intended | confidence | as-written member | corrected member |
|---|---|---|---|---|---|---|
| uniquehandlemap.cc:23-26 | `handle > size` is the only range check, then position `handle - 1` is read | handle 0 | handle 0 names no entry and gives the empty string | high, not executed | `Handles.HandleZeroReadsOutsideList` | `Handles.UniqueHandleMap.Identifier` |
| connection.cc:206 | `error == SocketError \|\| KeepAliveError` is always true | an XmppStreamError with condition NotAuthorized is reported as a network error | `error == SocketError \|\| error == KeepAliveError`, so authentication failures are reported as such | high, not executed | `Connections.AuthenticationFailureReportedAsNetworkError` | `Connections.StatusReasonForError` |
| textchannel.cc:122-132 | the header is copied into the report before "delivery-status" is set | any message carrying a chat marker | the report carries the marker's delivery status | high, not executed | `TextChannels.ReportAsWrittenLacksDeliveryStatus` | `TextChannels.DeliveryReport` |

The rest of the model uses the corrected behaviour. As in the code, the
header used for the later text message still carries the report's
message type and delivery status; the text message's type then
overwrites the message type.

## Left out

- The D-Bus and Telepathy plumbing is not modelled. This covers the
  constructors that create and plug interfaces, the SASL channel
  (`doConnect`, `saslStartMechanismWithData`) and channel registration.
- `ensureChannel` belongs to the Telepathy base connection, which is not
  part of this model. The at-most-one-channel get-or-create is therefore
  not modelled. `MessageChannelRequest` models only the request
  `onMessageReceived` builds and how it resolves.
- Network and packet I/O are not modelled. Sent packets and job calls
  are recorded outputs. Roster add and remove, subscription requests and
  vCard requests are left out.
- Avatar hashing (SHA-1), `setAvatar`, `clearAvatar`, `requestAvatars`
  and `onVCardReceived` are left out; they are foreign hashing and I/O.
- The room channel's fresh message ids (`QUuid::createUuid`) and
  wall-clock timestamps are nondeterministic. They are parameters. The
  one-to-one channel's ids are the constant `TextChannels.NullUuid`.
- `jidToBareJid`, `lastResourceForJid`, `ensureContactHandle` and
  `getContactIdentifier` are not defined in the files modelled. The first
  two are parameters. The last two are the registry's forward and reverse
  lookups.
- `protocol.cc`, `debug.cc` and `main.cc` are not part of this model.
- Roster group synchronisation, capability caching and
  best/last-resource selection are not implemented in the modelled files.
- The presence, alias and avatar attributes of `getContactAttributes`
  are left out. Presence goes through `ToTpPresence`, which is modelled.
  `getAliases`, `setAliases`, `onPresenceReceived`, `onRosterReceived`,
  `onConnected` and `onDisconnected` are left out too; they only forward
  data to the host.
- `requestSubscription`, `authorizePublication`, `unsubscribe` and
  `unpublish` are left out. They only forward roster requests to the
  engine.
- `Presences.ToTpPresence` takes the resource presences as a sequence in
  QMap iteration order. It does not model QMap's key ordering.
- The room channel's `processReceivedMessage` and the text channel's own
  `sendQXmppMessage` are not in the text channel source modelled. The
  first is the `Processed` outcome; the second is the `delivered`
  parameter.
- The room channel's member identifiers come from the Telepathy group
  interface, which is not part of this model. They are modelled as the
  registry's identifiers of the member handles.
- `onMucParticipantsChanged` also forwards each participant's presence
  to the connection (`updateMucParticipantInfo`, `updateJidPresence`).
  Those calls are left out.
- `onRoomNameChanged` and the room destructor are left out; they only
  forward to the host or the engine.
- The file transfer channel's `Tp::IODevice` and byte handling are left
  out. So is the constructor's creation of the transfer job. Only the
  state and reason mapping is modelled.
- `FileTransfers.FileTransferChannel.SetState` stands for the base
  channel's `setState`, which is not part of this model. It records the
  state and signals it back to `onStateChanged`, as the connection at
  filetransferchannel.cc:41 does. The initial state of the base channel
  is a constructor parameter.
- FileTransfers.FileTransferChannel.OnOutgoingTransferProgressChanged: stores the reported qint64 as an unbounded integer; the base channel's conversion of a negative count to its unsigned type is not modelled, because that conversion is not part of this model.
