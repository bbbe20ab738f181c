/**
 * The room (multi-user chat) text channel (muctextchannel.cc): it drops
 * messages from senders that are not members, suppresses the room's echo
 * of messages it sent itself by remembering their ids, sends direct
 * invitations (XEP-0249, section 2) and rebuilds its member list from the
 * room's participants.
 */
module MucChannels {
  import opened Tp
  import opened Xmpp
  import opened Handles

  /** QList::removeOne: the list without the first occurrence of `x`. */
  function RemoveOne(s: seq<string>, x: string): (r: seq<string>)
    ensures x !in s ==> r == s
    ensures x in s ==> |r| == |s| - 1
    decreases |s|
  {
    if |s| == 0 then []
    else if s[0] == x then s[1..]
    else [s[0]] + RemoveOne(s[1..], x)
  }

  /** Removal takes one occurrence of `x` away and leaves every other element's count as it was. */
  lemma {:induction false} RemoveOneCounts(s: seq<string>, x: string)
    ensures multiset(RemoveOne(s, x)) == multiset(s) - multiset{x}
    decreases |s|
  {
    if |s| > 0 {
      assert s == [s[0]] + s[1..];
      if s[0] != x {
        RemoveOneCounts(s[1..], x);
      }
    }
  }

  /** The occurrence removed is the first one: everything before it and everything after it stays, in order. */
  lemma {:induction false} RemoveOneRemovesFirst(s: seq<string>, x: string, i: nat)
    requires i < |s| && s[i] == x
    requires forall k :: 0 <= k < i ==> s[k] != x
    ensures RemoveOne(s, x) == s[..i] + s[i + 1..]
    decreases i
  {
    if i == 0 {
      assert s[..0] + s[1..] == s[1..];
    } else {
      var tail := s[1..];
      assert tail[i - 1] == x;
      RemoveOneRemovesFirst(tail, x, i - 1);
      assert RemoveOne(s, x) == [s[0]] + RemoveOne(tail, x);
      assert s[..i] == [s[0]] + tail[..i - 1];
      assert s[i + 1..] == tail[i..];
    }
  }

  /** Removing an id just appended to a list that did not hold it gives the list back. */
  lemma {:induction false} RemoveOneOfAppended(s: seq<string>, x: string)
    requires x !in s
    ensures RemoveOne(s + [x], x) == s
    decreases |s|
  {
    if |s| > 0 {
      assert (s + [x])[1..] == s[1..] + [x];
      assert x !in s[1..];
      RemoveOneOfAppended(s[1..], x);
      assert s == [s[0]] + s[1..];
    }
  }

  /** `m_sentIds` after a message is handed to `sendQXmppMessage`: messages carrying a chat state are refused. */
  function SentIdsAfterSend(sentIds: seq<string>, m: Message): seq<string> {
    if m.state.NoState? then sentIds + [m.id] else sentIds
  }

  /**
   * `m_sentIds` after an inbound message: a message from a non-member is
   * dropped before the echo check; otherwise one remembered occurrence of its
   * id, if any, is consumed.
   */
  function SentIdsAfterReceive(sentIds: seq<string>, senderKnown: bool, id: string): seq<string> {
    if senderKnown && id in sentIds then RemoveOne(sentIds, id) else sentIds
  }

  /** An echo consumes exactly one remembered occurrence of its id and no other id. */
  lemma EchoConsumesOneOccurrence(sentIds: seq<string>, id: string)
    requires id in sentIds
    ensures multiset(SentIdsAfterReceive(sentIds, true, id))[id] == multiset(sentIds)[id] - 1
    ensures forall other :: other != id ==>
              multiset(SentIdsAfterReceive(sentIds, true, id))[other] == multiset(sentIds)[other]
  {
    RemoveOneCounts(sentIds, id);
  }

  /**
   * A message sent once and echoed twice: the first echo is suppressed and
   * restores the remembered ids, so the second echo is processed as a new
   * message.
   */
  lemma SentOnceEchoedTwice(sentIds: seq<string>, m: Message)
    requires m.state.NoState?
    requires m.id !in sentIds
    ensures var afterSend := SentIdsAfterSend(sentIds, m);
            && m.id in afterSend
            && SentIdsAfterReceive(afterSend, true, m.id) == sentIds
            && m.id !in SentIdsAfterReceive(afterSend, true, m.id)
  {
    var afterSend := sentIds + [m.id];
    assert afterSend[|sentIds|] == m.id;
    RemoveOneOfAppended(sentIds, m.id);
  }

  /** A message refused for its chat state is not remembered, so its echo would not be suppressed. */
  lemma ChatStateMessagesAreNotRemembered(sentIds: seq<string>, m: Message)
    requires !m.state.NoState?
    requires m.id !in sentIds
    ensures SentIdsAfterReceive(SentIdsAfterSend(sentIds, m), true, m.id) == sentIds
    ensures m.id !in SentIdsAfterSend(sentIds, m)
  {
  }

  /** Some member of the room has `from` as its identifier. */
  ghost predicate IsMemberIdentifier(known: seq<string>, members: seq<nat>, from: string) {
    exists i :: 0 <= i < |members| && IdentifierOf(known, members[i]) == from
  }

  /**
   * A member list rebuilt from the participants (one handle per participant,
   * naming it) recognises exactly the participants as senders.
   */
  lemma MembersRecogniseExactlyParticipants(known: seq<string>, members: seq<nat>, participants: seq<string>, from: string)
    requires |members| == |participants|
    requires forall i :: 0 <= i < |members| ==> IdentifierOf(known, members[i]) == participants[i]
    ensures IsMemberIdentifier(known, members, from) <==> from in participants
  {
    if from in participants {
      var k :| 0 <= k < |participants| && participants[k] == from;
      assert IdentifierOf(known, members[k]) == from;
    }
  }

  /** What the channel does with an inbound room message. */
  datatype Inbound =
    | UnknownSender                       // dropped: the sender is not a member
    | EchoSuppressed                      // the room echoed a message this channel sent
    | Processed(sender: nat, from: string) // handed on as a received message from `sender`

  /**
   * A direct invitation (XEP-0249) to the room, addressed to `jid`: a
   * default message with only its type, recipient, id and invitation set.
   */
  predicate IsInvitation(message: Message, jid: string, roomJid: string, reason: string) {
    message == EmptyMessage.(kind := MsgNormal, to := jid, id := message.id,
                             mucInvitationJid := roomJid, mucInvitationReason := reason)
  }

  class MucTextChannel {
    /** the connection's handle registry, which `ensureContactHandle` and `getContactIdentifier` use */
    const registry: UniqueHandleMap
    /** m_room->jid() */
    const roomJid: string
    /** m_sentIds */
    var sentIds: seq<string>
    /** the group interface's member handles */
    var members: seq<nat>

    /** Every member handle names an entry of the registry. */
    ghost predicate Valid()
      reads this, registry
    {
      registry.Valid() && forall i :: 0 <= i < |members| ==> 1 <= members[i] <= |registry.known|
    }

    constructor (registry: UniqueHandleMap, roomJid: string)
      requires registry.Valid()
      ensures Valid() && this.registry == registry && this.roomJid == roomJid
      ensures sentIds == [] && members == []
    {
      this.registry := registry;
      this.roomJid := roomJid;
      sentIds := [];
      members := [];
    }

    /**
     * `memberIdentifiers().key(from)`: the member handle whose identifier is
     * `from`, or 0 when no member has it.
     */
    method SenderHandle(from: string) returns (sender: nat)
      requires Valid()
      ensures sender == 0 <==> !IsMemberIdentifier(registry.known, members, from)
      ensures sender != 0 ==> sender in members && IdentifierOf(registry.known, sender) == from
    {
      for i := 0 to |members|
        invariant forall k :: 0 <= k < i ==> IdentifierOf(registry.known, members[k]) != from
      {
        var identifier := registry.Identifier(members[i]);
        if identifier == from {
          return members[i];
        }
      }
      return 0;
    }

    /**
     * `onMessageReceived`: a message from a non-member is dropped; then a
     * message whose id was sent by this channel is an echo and consumes one
     * remembered id; anything else is processed as sent by the member.
     */
    method OnMessageReceived(message: Message) returns (outcome: Inbound)
      requires Valid()
      modifies this`sentIds
      ensures outcome == UnknownSender <==> !IsMemberIdentifier(registry.known, members, message.from)
      ensures sentIds == SentIdsAfterReceive(old(sentIds), outcome != UnknownSender, message.id)
      ensures outcome == EchoSuppressed <==> outcome != UnknownSender && message.id in old(sentIds)
      ensures outcome.Processed? ==>
                outcome.from == message.from && outcome.sender in members &&
                IdentifierOf(registry.known, outcome.sender) == message.from
    {
      var sender := SenderHandle(message.from);
      if sender == 0 {
        return UnknownSender;
      }
      if message.id in sentIds {
        sentIds := RemoveOne(sentIds, message.id);
        return EchoSuppressed;
      }
      return Processed(sender, message.from);
    }

    /**
     * `sendQXmppMessage`: a message carrying a chat state is refused. Any
     * other is remembered by id and handed, as a group chat message, to the
     * text channel's own send path, whose verdict `delivered` is returned.
     */
    method SendQXmppMessage(message: Message, delivered: bool) returns (ok: bool, sent: Option<Message>)
      modifies this`sentIds
      ensures sentIds == SentIdsAfterSend(old(sentIds), message)
      ensures !message.state.NoState? ==> !ok && sent == None
      ensures message.state.NoState? ==> ok == delivered && sent == Some(message.(kind := MsgGroupChat))
    {
      if !message.state.NoState? {
        return false, None;
      }
      sentIds := sentIds + [message.id];
      var groupMessage := message.(kind := MsgGroupChat);
      return delivered, Some(groupMessage);
    }

    /**
     * `addMembers`: every handle must name a contact before any invitation
     * is sent; then one direct invitation per handle, in order, carrying the
     * room and the reason. `token(i)` is the id of the i-th invitation.
     */
    method AddMembers(contacts: seq<nat>, reason: string, token: nat -> string)
      returns (err: Option<Error>, invitations: seq<Message>)
      ensures err.Some? <==> exists i :: 0 <= i < |contacts| && IdentifierOf(registry.known, contacts[i]) == ""
      ensures err.Some? ==> err.value == InvalidHandle && invitations == []
      ensures err.None? ==>
                |invitations| == |contacts| &&
                forall i :: 0 <= i < |contacts| ==>
                  IsInvitation(invitations[i], IdentifierOf(registry.known, contacts[i]), roomJid, reason) &&
                  invitations[i].id == token(i)
    {
      var jids: seq<string> := [];
      for i := 0 to |contacts|
        invariant |jids| == i
        invariant forall k :: 0 <= k < i ==> jids[k] == IdentifierOf(registry.known, contacts[k]) && jids[k] != ""
      {
        var jid := registry.Identifier(contacts[i]);
        if jid == "" {
          return Some(InvalidHandle), [];
        }
        jids := jids + [jid];
      }
      invitations := [];
      for i := 0 to |jids|
        invariant |invitations| == i
        invariant forall k :: 0 <= k < i ==>
                    IsInvitation(invitations[k], jids[k], roomJid, reason) && invitations[k].id == token(k)
      {
        var message := EmptyMessage;
        message := message.(kind := MsgNormal);
        message := message.(to := jids[i]);
        message := message.(id := token(i));
        message := message.(mucInvitationJid := roomJid);
        message := message.(mucInvitationReason := reason);
        invitations := invitations + [message];
      }
      err := None;
    }

    /**
     * `onMucParticipantsChanged`: the member list becomes one handle per
     * participant, in participant order, allocating handles for new ones.
     */
    method OnMucParticipantsChanged(participants: seq<string>)
      requires Valid()
      modifies registry, this`members
      ensures Valid()
      ensures registry.known == AllocateAll(old(registry.known), participants)
      ensures |members| == |participants|
      ensures forall i :: 0 <= i < |participants| ==> IdentifierOf(registry.known, members[i]) == participants[i]
    {
      ghost var known0 := registry.known;
      var handles: seq<nat> := [];
      for i := 0 to |participants|
        invariant registry.Valid()
        invariant registry.known == AllocateAll(known0, participants[..i])
        invariant NamesAll(registry.known, handles, participants[..i])
      {
        LookupOneMore(known0, participants, i, registry.known, handles);
        var handle := registry.HandleFor(participants[i]);
        handles := handles + [handle];
      }
      assert participants[..|participants|] == participants;
      members := handles;
    }
  }
}
