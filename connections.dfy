/**
 * The connection object (connection.cc): self presence, handle inspection
 * and allocation, channel request validation, roster subscription
 * attributes, avatar tokens, contact removal and stream errors.
 */
module Connections {
  import opened Tp
  import opened Xmpp
  import opened Handles
  import Presences

  /** TP_QT_IFACE_CHANNEL_TYPE_TEXT */
  const TextChannelType: string := "org.freedesktop.Telepathy.Channel.Type.Text"

  /**
   * The keys of a channel request map that `createChannel` reads. A missing
   * TargetHandleType converts to 0, which is HandleTypeNone.
   */
  datatype ChannelRequest = ChannelRequest(
    channelType: string,
    targetHandleType: nat,
    targetHandle: Option<nat>,
    targetId: Option<string>)

  /** The channel `createChannel` builds: its type, target and whether a text interface is plugged in. */
  datatype ChannelTarget = ChannelTarget(
    channelType: string,
    handleType: nat,
    handle: nat,
    id: string,
    textInterface: bool)

  /**
   * `createChannel` target resolution over the registry list `known`: the new
   * list (a TargetID is allocated a handle) and the channel or the error.
   * TargetHandle takes precedence over TargetID; whatever succeeds names a
   * target whose handle and identifier agree in the new registry.
   */
  function CreateChannelOutcome(known: seq<string>, req: ChannelRequest): (out: (seq<string>, Result<ChannelTarget>))
    ensures known <= out.0
    ensures req.targetHandleType != HandleTypeContact ==> out == (known, Err(InvalidArgument))
    ensures req.targetHandleType == HandleTypeContact && out.1.Err? ==> out.1.error == InvalidHandle
    ensures req.targetHandleType == HandleTypeContact && req.targetHandle.Some? ==>
              out.0 == known &&
              (out.1.Ok? <==> IdentifierOf(known, req.targetHandle.value) != "") &&
              (out.1.Ok? ==> out.1.value.handle == req.targetHandle.value)
    ensures req.targetHandleType == HandleTypeContact && req.targetHandle.None? && req.targetId.Some? ==>
              out.0 == Allocate(known, req.targetId.value) &&
              (out.1.Ok? <==> req.targetId.value != "") &&
              (out.1.Ok? ==> out.1.value.id == req.targetId.value)
    ensures req.targetHandleType == HandleTypeContact && req.targetHandle.None? && req.targetId.None? ==>
              out == (known, Err(InvalidHandle))
    ensures out.1.Ok? ==>
              var t := out.1.value;
              t.id != "" && IdentifierOf(out.0, t.handle) == t.id &&
              t.handleType == HandleTypeContact && t.channelType == req.channelType &&
              (t.textInterface <==> req.channelType == TextChannelType)
  {
    if req.targetHandleType != HandleTypeContact then (known, Err(InvalidArgument))
    else
      var (known', handle, id) :=
        if req.targetHandle.Some? then (known, req.targetHandle.value, IdentifierOf(known, req.targetHandle.value))
        else if req.targetId.Some? then (Allocate(known, req.targetId.value), HandleOf(known, req.targetId.value), req.targetId.value)
        else (known, 0, "");
      RoundTrip(known, if req.targetId.Some? then req.targetId.value else "");
      if id == "" then (known', Err(InvalidHandle))
      else (known', Ok(ChannelTarget(req.channelType, HandleTypeContact, handle, id, req.channelType == TextChannelType)))
  }

  /** A channel requested by identifier can be requested again by the handle it received, with the same result. */
  lemma RequestByIdThenByHandleAgree(known: seq<string>, channelType: string, id: string)
    requires id != ""
    ensures var (k1, r1) := CreateChannelOutcome(known, ChannelRequest(channelType, HandleTypeContact, None, Some(id)));
            r1.Ok? &&
            CreateChannelOutcome(k1, ChannelRequest(channelType, HandleTypeContact, Some(r1.value.handle), None)) == (k1, r1)
  {
    var (k1, r1) := CreateChannelOutcome(known, ChannelRequest(channelType, HandleTypeContact, None, Some(id)));
    RoundTrip(known, id);
    assert IdentifierOf(k1, r1.value.handle) == id;
  }

  /** Only contact targets are served: a room target is refused before anything is looked up. */
  lemma RoomTargetsAreRefused(known: seq<string>, channelType: string, handle: Option<nat>, id: Option<string>)
    ensures CreateChannelOutcome(known, ChannelRequest(channelType, HandleTypeRoom, handle, id)) ==
            (known, Err(InvalidArgument))
  {
  }

  /** An empty TargetID is refused, but only after a handle has been allocated for it. */
  lemma EmptyTargetIdIsAllocatedThenRefused(known: seq<string>, channelType: string)
    requires "" !in known
    ensures CreateChannelOutcome(known, ChannelRequest(channelType, HandleTypeContact, None, Some(""))) ==
            (known + [""], Err(InvalidHandle))
  {
  }

  /**
   * Who is subscribed to whom, as section 2.1.2.5 of RFC 6121 defines the
   * subscription values: "to" and "both" mean the user receives the
   * contact's presence, "from" and "both" that the contact receives the user's.
   */
  predicate UserSubscribedToContact(sub: Subscription) { sub == SubTo || sub == SubBoth }
  predicate ContactSubscribedToUser(sub: Subscription) { sub == SubFrom || sub == SubBoth }

  function YesOrNo(b: bool): SubscriptionState { if b then SubYes else SubNo }

  /**
   * The (subscribe, publish) contact-list states reported for a roster entry:
   * none for a "remove" entry, unknown for an unset one, otherwise the RFC 6121
   * meaning of the subscription value.
   */
  function SubscriptionStates(sub: Subscription): (r: Option<(SubscriptionState, SubscriptionState)>)
    ensures r.None? <==> sub == SubRemove
    ensures sub == SubNotSet ==> r == Some((SubUnknown, SubUnknown))
    ensures sub != SubRemove && sub != SubNotSet ==>
              r == Some((YesOrNo(UserSubscribedToContact(sub)), YesOrNo(ContactSubscribedToUser(sub))))
  {
    match sub
    case SubNone => Some((SubNo, SubNo))
    case SubFrom => Some((SubNo, SubYes))
    case SubTo => Some((SubYes, SubNo))
    case SubBoth => Some((SubYes, SubYes))
    case SubRemove => None
    case SubNotSet => Some((SubUnknown, SubUnknown))
  }

  /** The contact-id and contact-list attributes `getContactAttributes` fills for one JID. */
  datatype ContactListAttributes = ContactListAttributes(
    contactId: Option<string>,
    subscription: Option<(SubscriptionState, SubscriptionState)>)

  /**
   * The self contact is always subscribed both ways; a roster contact gets
   * its entry's states; any other JID gets no attributes at all.
   */
  function ContactListAttributesFor(jid: string, selfJid: string, roster: map<string, Subscription>, wantsContactList: bool)
    : (a: ContactListAttributes)
    ensures jid == selfJid ==>
              a.contactId == Some(jid) && a.subscription == (if wantsContactList then Some((SubYes, SubYes)) else None)
    ensures jid != selfJid && jid in roster ==>
              a.contactId == Some(jid) &&
              a.subscription == (if wantsContactList then SubscriptionStates(roster[jid]) else None)
    ensures jid != selfJid && jid !in roster ==> a == ContactListAttributes(None, None)
  {
    if jid == selfJid then
      ContactListAttributes(Some(jid), if wantsContactList then Some((SubYes, SubYes)) else None)
    else if jid in roster then
      ContactListAttributes(Some(jid), if wantsContactList then SubscriptionStates(roster[jid]) else None)
    else
      ContactListAttributes(None, None)
  }

  /** The token recorded for `jid`, reading a missing entry as the empty token (QMap's default value). */
  function TokenOf(tokens: map<string, string>, jid: string): string {
    if jid in tokens then tokens[jid] else ""
  }

  /**
   * `onError`, condition as written at connection.cc:206: the right operand of
   * `||` is the enumerator KeepAliveError itself, which is non-zero, so the
   * first branch is taken for every error.
   */
  function StatusReasonAsWritten(error: ClientError, condition: StreamCondition): ConnectionStatusReason {
    if error == SocketError || ClientErrorCode(KeepAliveError) != 0 then ReasonNetworkError
    else if error == XmppStreamError then
      (if condition == NotAuthorized then ReasonAuthenticationFailed else ReasonNoneSpecified)
    else ReasonNoneSpecified
  }

  /**
   * As written, a stream error with condition not-authorized is reported as
   * a network error, and so is every other error, NoError included.
   */
  lemma AuthenticationFailureReportedAsNetworkError()
    ensures StatusReasonAsWritten(XmppStreamError, NotAuthorized) == ReasonNetworkError
    ensures StatusReasonAsWritten(NoError, OtherCondition) == ReasonNetworkError
    ensures forall e, c :: StatusReasonAsWritten(e, c) == ReasonNetworkError
  {
  }

  /**
   * `onError` as evidently intended: socket and keep-alive errors are network
   * errors; a stream error is an authentication failure exactly when its
   * condition is not-authorized; NoError reaches the assertion (None).
   */
  function StatusReasonForError(error: ClientError, condition: StreamCondition): (r: Option<ConnectionStatusReason>)
    ensures r.None? <==> error.NoError?
    ensures r == Some(ReasonNetworkError) <==> error == SocketError || error == KeepAliveError
    ensures r == Some(ReasonAuthenticationFailed) <==> error == XmppStreamError && condition == NotAuthorized
    ensures error != NoError ==> r.Some? && (r.value == StatusReasonAsWritten(error, condition) <==> error != XmppStreamError)
  {
    if error == SocketError || error == KeepAliveError then Some(ReasonNetworkError)
    else if error == XmppStreamError then
      Some(if condition == NotAuthorized then ReasonAuthenticationFailed else ReasonNoneSpecified)
    else None
  }

  /** The JIDs a sequence of handles names, in the registry list `known`. */
  function QueriedJids(known: seq<string>, handles: seq<nat>): (s: set<string>)
    ensures forall h :: h in handles ==> IdentifierOf(known, h) in s
  {
    if |handles| == 0 then {}
    else QueriedJids(known, handles[..|handles| - 1]) + {IdentifierOf(known, handles[|handles| - 1])}
  }

  /** The token map after querying `queried`: queried JIDs are present, no token has changed. */
  ghost predicate TokensAfterQuery(tokens0: map<string, string>, known: seq<string>, queried: seq<nat>, tokens: map<string, string>) {
    && (forall j :: j in tokens ==> tokens[j] == TokenOf(tokens0, j))
    && tokens.Keys == tokens0.Keys + QueriedJids(known, queried)
  }

  /** The result after querying `queried`: exactly the queried handles with a non-empty token, with that token. */
  ghost predicate KnownTokens(tokens0: map<string, string>, known: seq<string>, queried: seq<nat>, result: map<nat, string>) {
    && (forall h :: h in result <==> h in queried && TokenOf(tokens0, IdentifierOf(known, h)) != "")
    && (forall h :: h in result ==> result[h] == TokenOf(tokens0, IdentifierOf(known, h)))
  }

  /** One iteration of `getKnownAvatarTokens` reads the JID's token, inserting an empty one if it had none. */
  lemma TokensStep(tokens0: map<string, string>, known: seq<string>, handles: seq<nat>, i: nat, tokens: map<string, string>)
    requires i < |handles|
    requires TokensAfterQuery(tokens0, known, handles[..i], tokens)
    ensures var jid := IdentifierOf(known, handles[i]);
            TokensAfterQuery(tokens0, known, handles[..i + 1], if jid in tokens then tokens else tokens[jid := ""])
  {
    assert handles[..i + 1][..i] == handles[..i];
  }

  /** ... and adds the handle to the result exactly when that token is not empty. */
  lemma ResultStep(tokens0: map<string, string>, known: seq<string>, handles: seq<nat>, i: nat,
                   token: string, result: map<nat, string>)
    requires i < |handles|
    requires token == TokenOf(tokens0, IdentifierOf(known, handles[i]))
    requires KnownTokens(tokens0, known, handles[..i], result)
    ensures KnownTokens(tokens0, known, handles[..i + 1], if token != "" then result[handles[i] := token] else result)
  {
    assert handles[..i + 1] == handles[..i] + [handles[i]];
  }

  /** m_client: no object before the first connection attempt, then a client that is connected or not. */
  datatype Client = NoClient | Client(connected: bool)

  class Connection {
    /** m_uniqueHandleMap */
    const registry: UniqueHandleMap
    /** m_clientConfig.jidBare() and the handle allocated for it at construction */
    const selfJid: string
    const selfHandle: nat
    /** m_clientPresence */
    var clientPresence: Presence
    /** m_avatarTokens */
    var avatarTokens: map<string, string>
    /** the status last passed to setStatus */
    var status: ConnectionStatus
    var statusReason: ConnectionStatusReason

    ghost predicate Valid()
      reads this, registry
    {
      registry.Valid() && 1 <= selfHandle <= |registry.known| && IdentifierOf(registry.known, selfHandle) == selfJid
    }

    /** The self contact is the first handle of a fresh registry. */
    constructor (account: string)
      ensures Valid() && fresh(registry)
      ensures registry.known == [account] && selfJid == account && selfHandle == 1
      ensures clientPresence == Presence(PresAvailable, Online, "") && avatarTokens == map[]
      ensures status == StatusDisconnected
    {
      var r := new UniqueHandleMap();
      var h := r.HandleFor(account);
      registry := r;
      selfJid := account;
      selfHandle := h;
      clientPresence := Presence(PresAvailable, Online, "");
      avatarTokens := map[];
      status, statusReason := StatusDisconnected, ReasonNoneSpecified;
    }

    /**
     * `setPresence`. `engine` is the engine's own client presence when the
     * client is connected. An unknown keyword reaches the assertion; with
     * assertions compiled out the status type is then left as it was. The
     * message is stored either way, the new presence is sent when connected,
     * and the self handle is returned.
     */
    method SetPresence(keyword: string, message: string, engine: Option<Presence>)
      returns (handle: nat, assertionFailed: bool, sent: Option<Presence>)
      requires Valid()
      modifies this`clientPresence
      ensures handle == selfHandle && IdentifierOf(registry.known, handle) == selfJid
      ensures assertionFailed <==> Presences.StatusTypeForKeyword(keyword).None?
      ensures var base := if engine.Some? then engine.value else old(clientPresence);
              clientPresence == Presence(
                base.kind,
                if assertionFailed then base.status else Presences.StatusTypeForKeyword(keyword).value,
                message)
      ensures sent == (if engine.Some? then Some(clientPresence) else None)
    {
      if engine.Some? {
        clientPresence := engine.value;
      }
      assertionFailed := false;
      if keyword == "available" {
        clientPresence := clientPresence.(status := Online);
      } else if keyword == "away" {
        clientPresence := clientPresence.(status := Away);
      } else if keyword == "xa" {
        clientPresence := clientPresence.(status := XA);
      } else if keyword == "dnd" {
        clientPresence := clientPresence.(status := DND);
      } else if keyword == "chat" {
        clientPresence := clientPresence.(status := Chat);
      } else if keyword == "hidden" {
        clientPresence := clientPresence.(status := Invisible);
      } else {
        assertionFailed := true;
      }
      clientPresence := clientPresence.(statusText := message);
      sent := if engine.Some? then Some(clientPresence) else None;
      handle := selfHandle;
    }

    /**
     * `inspectHandles`: disconnected first, then the handle type, then every
     * handle must name a JID; on success one JID per handle, in order.
     */
    method InspectHandles(handleType: nat, handles: seq<nat>, clientConnected: bool) returns (r: Result<seq<string>>)
      ensures !clientConnected ==> r == Err(Disconnected)
      ensures clientConnected && handleType != HandleTypeContact ==> r == Err(InvalidArgument)
      ensures clientConnected && handleType == HandleTypeContact ==>
                (r == Err(InvalidHandle) <==> exists i :: 0 <= i < |handles| && IdentifierOf(registry.known, handles[i]) == "")
      ensures r.Ok? <==> clientConnected && handleType == HandleTypeContact &&
                         forall i :: 0 <= i < |handles| ==> IdentifierOf(registry.known, handles[i]) != ""
      ensures r.Ok? ==> |r.value| == |handles| &&
                        forall i :: 0 <= i < |handles| ==> r.value[i] == IdentifierOf(registry.known, handles[i])
    {
      if !clientConnected {
        return Err(Disconnected);
      }
      if handleType != HandleTypeContact {
        return Err(InvalidArgument);
      }
      var result: seq<string> := [];
      for i := 0 to |handles|
        invariant |result| == i
        invariant forall k :: 0 <= k < i ==> result[k] == IdentifierOf(registry.known, handles[k]) && result[k] != ""
      {
        var bareJid := registry.Identifier(handles[i]);
        if bareJid == "" {
          return Err(InvalidHandle);
        }
        result := result + [bareJid];
      }
      return Ok(result);
    }

    /**
     * `requestHandles`: refuses any handle type but contact; otherwise one
     * handle per identifier, in order, allocating unseen identifiers.
     */
    method RequestHandles(handleType: nat, identifiers: seq<string>) returns (r: Result<seq<nat>>)
      requires Valid()
      modifies registry
      ensures Valid()
      ensures handleType != HandleTypeContact ==> r == Err(InvalidArgument) && registry.known == old(registry.known)
      ensures handleType == HandleTypeContact ==>
                r.Ok? && registry.known == AllocateAll(old(registry.known), identifiers)
      ensures old(registry.known) <= registry.known
      ensures r.Ok? ==> |r.value| == |identifiers| &&
                        forall i :: 0 <= i < |identifiers| ==>
                          1 <= r.value[i] <= |registry.known| && IdentifierOf(registry.known, r.value[i]) == identifiers[i]
    {
      if handleType != HandleTypeContact {
        return Err(InvalidArgument);
      }
      ghost var known0 := registry.known;
      var result: seq<nat> := [];
      for i := 0 to |identifiers|
        invariant registry.Valid()
        invariant registry.known == AllocateAll(known0, identifiers[..i])
        invariant NamesAll(registry.known, result, identifiers[..i])
      {
        LookupOneMore(known0, identifiers, i, registry.known, result);
        var handle := registry.HandleFor(identifiers[i]);
        result := result + [handle];
      }
      assert identifiers[..|identifiers|] == identifiers;
      AllocateAllExtends(known0, identifiers);
      ExtensionKeepsOldHandles(known0, registry.known, selfHandle);
      return Ok(result);
    }

    /** `createChannel`'s validation and target resolution, on the live registry. */
    method CreateChannel(req: ChannelRequest) returns (r: Result<ChannelTarget>)
      requires Valid()
      modifies registry
      ensures Valid()
      ensures (registry.known, r) == CreateChannelOutcome(old(registry.known), req)
    {
      if req.targetHandleType != HandleTypeContact {
        return Err(InvalidArgument);
      }
      var targetHandle: nat := 0;
      var targetId := "";
      if req.targetHandle.Some? {
        targetHandle := req.targetHandle.value;
        targetId := registry.Identifier(targetHandle);
      } else if req.targetId.Some? {
        targetId := req.targetId.value;
        targetHandle := registry.HandleFor(targetId);
        ExtensionKeepsOldHandles(old(registry.known), registry.known, selfHandle);
      }
      if targetId == "" {
        return Err(InvalidHandle);
      }
      r := Ok(ChannelTarget(req.channelType, HandleTypeContact, targetHandle, targetId, req.channelType == TextChannelType));
    }

    /**
     * The request `onMessageReceived` hands to the get-or-create of the base
     * connection: a text channel targeting, and initiated by, the handle of
     * the sender's bare JID.
     */
    method MessageChannelRequest(bareFrom: string) returns (req: ChannelRequest, initiator: nat)
      requires Valid()
      modifies registry
      ensures Valid()
      ensures registry.known == Allocate(old(registry.known), bareFrom)
      ensures initiator == HandleOf(old(registry.known), bareFrom)
      ensures req == ChannelRequest(TextChannelType, HandleTypeContact, Some(initiator), None)
      ensures bareFrom != "" ==>
                CreateChannelOutcome(registry.known, req) ==
                (registry.known, Ok(ChannelTarget(TextChannelType, HandleTypeContact, initiator, bareFrom, true)))
    {
      initiator := registry.HandleFor(bareFrom);
      AllocateKeepsOldHandles(old(registry.known), bareFrom, selfHandle);
      req := ChannelRequest(TextChannelType, HandleTypeContact, Some(initiator), None);
    }

    /**
     * `getKnownAvatarTokens`. `pending` is the error already set on entry.
     * On success the map holds exactly the queried handles with a non-empty
     * token. Reading a JID through QMap's operator[] inserts an empty token
     * for every queried JID that had none; no existing token changes.
     */
    method GetKnownAvatarTokens(handles: seq<nat>, pending: Option<Error>, clientConnected: bool)
      returns (r: Result<map<nat, string>>)
      modifies this`avatarTokens
      ensures pending.Some? ==> r == Err(pending.value) && avatarTokens == old(avatarTokens)
      ensures pending.None? && !clientConnected ==> r == Err(Disconnected) && avatarTokens == old(avatarTokens)
      ensures pending.None? && clientConnected ==> r.Ok?
      ensures r.Ok? ==>
                (forall h :: h in r.value <==> h in handles && TokenOf(old(avatarTokens), IdentifierOf(registry.known, h)) != "") &&
                (forall h :: h in r.value ==> r.value[h] == TokenOf(old(avatarTokens), IdentifierOf(registry.known, h)))
      ensures r.Ok? ==>
                avatarTokens.Keys == old(avatarTokens).Keys + QueriedJids(registry.known, handles)
      ensures forall j :: j in avatarTokens ==> avatarTokens[j] == TokenOf(old(avatarTokens), j)
    {
      if pending.Some? {
        return Err(pending.value);
      }
      if !clientConnected {
        return Err(Disconnected);
      }
      ghost var tokens0, known := avatarTokens, registry.known;
      var result: map<nat, string> := map[];
      for i := 0 to |handles|
        invariant TokensAfterQuery(tokens0, known, handles[..i], avatarTokens)
        invariant KnownTokens(tokens0, known, handles[..i], result)
      {
        var jid := registry.Identifier(handles[i]);
        TokensStep(tokens0, known, handles, i, avatarTokens);
        if jid !in avatarTokens {
          avatarTokens := avatarTokens[jid := ""];
        }
        ResultStep(tokens0, known, handles, i, avatarTokens[jid], result);
        if avatarTokens[jid] != "" {
          result := result[handles[i] := avatarTokens[jid]];
        }
      }
      assert handles[..|handles|] == handles;
      return Ok(result);
    }

    /**
     * `removeContacts`. `pending` is the error already set on entry, which
     * returns at once. Without a connected client Disconnected is set but the
     * call does not return. With a client object, connected or not, the roster
     * removals are requested, one per handle, and the removals map has one
     * entry per handle with its JID. Before the first connection attempt there
     * is no client object, and the first handle dereferences the null client:
     * the call ends there with nothing requested.
     */
    method RemoveContacts(handles: seq<nat>, pending: Option<Error>, client: Client)
      returns (err: Option<Error>, removals: map<nat, string>, removeItems: seq<string>, nullDereference: bool)
      ensures pending.Some? ==> err == pending && removals == map[] && removeItems == [] && !nullDereference
      ensures pending.None? ==> err == (if client.Client? && client.connected then None else Some(Disconnected))
      ensures nullDereference <==> pending.None? && client.NoClient? && |handles| > 0
      ensures nullDereference ==> removals == map[] && removeItems == []
      ensures pending.None? && !nullDereference ==>
                (forall h :: h in removals <==> h in handles) &&
                (forall h :: h in removals ==> removals[h] == IdentifierOf(registry.known, h)) &&
                |removeItems| == |handles| &&
                (forall i :: 0 <= i < |handles| ==> removeItems[i] == IdentifierOf(registry.known, handles[i]))
    {
      nullDereference := false;
      if pending.Some? {
        return pending, map[], [], false;
      }
      err := if client.Client? && client.connected then None else Some(Disconnected);
      removals, removeItems := map[], [];
      for i := 0 to |handles|
        invariant forall h :: h in removals <==> h in handles[..i]
        invariant forall h :: h in removals ==> removals[h] == IdentifierOf(registry.known, h)
        invariant |removeItems| == i
        invariant forall k :: 0 <= k < i ==> removeItems[k] == IdentifierOf(registry.known, handles[k])
        invariant i > 0 ==> client.Client?
      {
        if client.NoClient? {
          return err, map[], [], true;
        }
        var jid := registry.Identifier(handles[i]);
        removeItems := removeItems + [jid];
        var again := registry.Identifier(handles[i]);
        removals := removals[handles[i] := again];
        assert handles[..i + 1] == handles[..i] + [handles[i]];
      }
      assert handles[..|handles|] == handles;
    }

    /** `onError` (with the corrected condition): the connection becomes disconnected with the matching reason. */
    method OnError(error: ClientError, condition: StreamCondition) returns (assertionFailed: bool)
      modifies this`status, this`statusReason
      ensures assertionFailed <==> StatusReasonForError(error, condition).None?
      ensures !assertionFailed ==>
                status == StatusDisconnected && statusReason == StatusReasonForError(error, condition).value
      ensures assertionFailed ==> status == old(status) && statusReason == old(statusReason)
    {
      if error == SocketError || error == KeepAliveError {
        status, statusReason := StatusDisconnected, ReasonNetworkError;
        assertionFailed := false;
      } else if error == XmppStreamError {
        if condition == NotAuthorized {
          status, statusReason := StatusDisconnected, ReasonAuthenticationFailed;
        } else {
          status, statusReason := StatusDisconnected, ReasonNoneSpecified;
        }
        assertionFailed := false;
      } else {
        assertionFailed := true;
      }
    }
  }
}
