/**
 * The fixed tables the connection advertises (common.cc): the simple
 * presence statuses and the avatar requirements.
 */
module Common {
  import opened Tp

  /** Tp::SimpleStatusSpec */
  datatype StatusSpec = StatusSpec(kind: ConnectionPresenceType, maySetOnSelf: bool, canHaveMessage: bool)

  /** Common::getSimpleStatusSpecMap */
  function StatusSpecMap(): (m: map<string, StatusSpec>)
    ensures m.Keys == {"offline", "available", "away", "xa", "dnd", "chat", "hidden", "unknown"}
    ensures forall k :: k in m ==> (m[k].maySetOnSelf <==> k != "unknown")
    ensures forall k :: k in m ==> (m[k].canHaveMessage <==> k != "offline" && k != "unknown")
  {
    map[
      "offline" := StatusSpec(PresenceOffline, true, false),
      "available" := StatusSpec(PresenceAvailable, true, true),
      "away" := StatusSpec(PresenceAway, true, true),
      "xa" := StatusSpec(PresenceExtendedAway, true, true),
      "dnd" := StatusSpec(PresenceBusy, true, true),
      "chat" := StatusSpec(PresenceAvailable, true, true),
      "hidden" := StatusSpec(PresenceHidden, true, true),
      "unknown" := StatusSpec(PresenceUnknown, false, false)
    ]
  }

  /** The table has exactly eight statuses. */
  lemma StatusTableHasEightEntries()
    ensures |StatusSpecMap()| == 8
  {
    var m := StatusSpecMap();
    var short := {"xa", "dnd", "away", "hidden", "offline", "available"};
    assert |short| == 6;
    assert "chat"[0] != "away"[0] && "chat" !in short;
    assert "unknown"[0] != "offline"[0] && "unknown" !in short + {"chat"};
    assert m.Keys == short + {"chat"} + {"unknown"};
  }

  /** "available" and "chat" share a presence type; every other pair of statuses differs in type. */
  lemma StatusTypesDistinctExceptChat(a: string, b: string)
    requires a in StatusSpecMap() && b in StatusSpecMap() && a != b
    ensures StatusSpecMap()[a].kind == StatusSpecMap()[b].kind <==>
            ({a, b} == {"available", "chat"})
  {
  }

  /** Tp::AvatarSpec as Common::getAvatarSpec builds it. */
  datatype AvatarSpec = AvatarSpec(
    mimeTypes: seq<string>,
    minHeight: nat, maxHeight: nat, recommendedHeight: nat,
    minWidth: nat, maxWidth: nat, recommendedWidth: nat,
    maxBytes: nat)

  function AvatarRequirements(): (spec: AvatarSpec)
    ensures spec.mimeTypes == ["image/png", "image/jpeg"]
    ensures spec.minHeight == 0 && spec.minWidth == 0
    ensures spec.maxHeight == 512 && spec.maxWidth == 512
    ensures spec.recommendedHeight == 256 && spec.recommendedWidth == 256
    ensures spec.maxBytes == 1048576
  {
    AvatarSpec(["image/png", "image/jpeg"], 0, 512, 256, 0, 512, 256, 1024 * 1024)
  }
}
