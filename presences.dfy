/**
 * Presence aggregation and the status keyword table of the connection
 * (connection.cc `toTpPresence` and the keyword parser of `setPresence`).
 */
module Presences {
  import opened Tp
  import opened Xmpp
  import Common

  /** The status keyword reported for an available presence of status type `s`. */
  function KeywordFor(s: AvailableStatusType): string {
    match s
    case Online => "available"
    case Away => "away"
    case XA => "xa"
    case DND => "dnd"
    case Chat => "chat"
    case Invisible => "hidden"
  }

  /** The Telepathy presence type reported for an available presence of status type `s`. */
  function PresenceTypeFor(s: AvailableStatusType): ConnectionPresenceType {
    match s
    case Online => PresenceAvailable
    case Away => PresenceAway
    case XA => PresenceExtendedAway
    case DND => PresenceBusy
    case Chat => PresenceAvailable
    case Invisible => PresenceHidden
  }

  /**
   * The Telepathy presence reported for the winning resource presence: only
   * an available presence is online; the message is always the winner's text;
   * every reported pair agrees with the advertised status table.
   */
  function Translate(p: Presence): (r: SimplePresence)
    ensures r.statusMessage == p.statusText
    ensures p.kind != PresAvailable ==> r.kind == PresenceOffline && r.status == "offline"
    ensures p.kind == PresAvailable ==> r.status != "offline" && r.kind != PresenceOffline
    ensures r.status in Common.StatusSpecMap() && Common.StatusSpecMap()[r.status].kind == r.kind
    ensures r.status != "unknown"
  {
    if p.kind == PresAvailable then
      SimplePresence(PresenceTypeFor(p.status), KeywordFor(p.status), p.statusText)
    else
      SimplePresence(PresenceOffline, "offline", p.statusText)
  }

  /**
   * Entry `i` is the one the fold keeps: it is not an error, no non-error entry
   * has a lower status code, and every earlier non-error entry has a strictly
   * higher one (ties keep the earliest).
   */
  ghost predicate IsWinner(ps: seq<Presence>, i: int) {
    && 0 <= i < |ps|
    && ps[i].kind != PresError
    && (forall j :: 0 <= j < |ps| && ps[j].kind != PresError ==> StatusCode(ps[i].status) <= StatusCode(ps[j].status))
    && (forall j :: 0 <= j < i && ps[j].kind != PresError ==> StatusCode(ps[j].status) > StatusCode(ps[i].status))
  }

  /** The rule picks at most one entry. */
  lemma WinnerUnique(ps: seq<Presence>, i: int, j: int)
    requires IsWinner(ps, i) && IsWinner(ps, j)
    ensures i == j
  {
  }

  /**
   * `toTpPresence`: folds the resource presences (in map iteration order)
   * into one Telepathy presence. With no non-error entry the result is
   * offline with an empty message; otherwise it is the translation of the
   * unique winner.
   */
  method ToTpPresence(presences: seq<Presence>) returns (r: SimplePresence)
    ensures (forall j :: 0 <= j < |presences| ==> presences[j].kind == PresError) ==>
              r == SimplePresence(PresenceOffline, "offline", "")
    ensures (exists j :: 0 <= j < |presences| && presences[j].kind != PresError) ==>
              exists i :: IsWinner(presences, i) && r == Translate(presences[i])
  {
    var maxPresence := ErrorPresence;
    ghost var w := -1;
    for k := 0 to |presences|
      invariant w == -1 ==> maxPresence == ErrorPresence && forall j :: 0 <= j < k ==> presences[j].kind == PresError
      invariant w != -1 ==> IsWinner(presences[..k], w) && maxPresence == presences[w]
    {
      var presence := presences[k];
      if presence.kind == PresError {
        continue;
      }
      if maxPresence.kind == PresError {
        maxPresence := presence;
        w := k;
        continue;
      }
      if StatusCode(maxPresence.status) > StatusCode(presence.status) {
        maxPresence := presence;
        w := k;
      }
    }
    assert presences[..|presences|] == presences;
    r := Translate(maxPresence);
  }

  /** An Away resource and an Online resource aggregate to "available". */
  lemma OnlineResourceBeatsAwayResource(awayText: string, onlineText: string)
    ensures var ps := [Presence(PresAvailable, Away, awayText), Presence(PresAvailable, Online, onlineText)];
            IsWinner(ps, 1) && Translate(ps[1]) == SimplePresence(PresenceAvailable, "available", onlineText)
  {
  }

  /**
   * The comparison ignores the presence type: an unavailable entry with a
   * lower status code hides an available one, and the result is offline.
   */
  lemma UnavailableEntryCanHideAvailableOne()
    ensures var ps := [Presence(PresUnavailable, Online, ""), Presence(PresAvailable, Away, "")];
            IsWinner(ps, 0) && Translate(ps[0]).status == "offline"
  {
  }

  /** The keywords `setPresence` accepts and the status type each one selects. */
  function StatusTypeForKeyword(status: string): (r: Option<AvailableStatusType>)
    ensures r.Some? <==> status in {"available", "away", "xa", "dnd", "chat", "hidden"}
    ensures r.Some? ==> KeywordFor(r.value) == status
  {
    if status == "available" then Some(Online)
    else if status == "away" then Some(Away)
    else if status == "xa" then Some(XA)
    else if status == "dnd" then Some(DND)
    else if status == "chat" then Some(Chat)
    else if status == "hidden" then Some(Invisible)
    else None
  }

  /** The keyword reported for a status type is parsed back to that status type. */
  lemma KeywordRoundTrip(s: AvailableStatusType)
    ensures StatusTypeForKeyword(KeywordFor(s)) == Some(s)
  {
  }

  /**
   * Setting one of the six keywords and then aggregating the single resulting
   * presence reports the same keyword, with the table's type and the message.
   */
  lemma SetThenReportSameKeyword(status: string, message: string)
    requires StatusTypeForKeyword(status).Some?
    ensures var p := Presence(PresAvailable, StatusTypeForKeyword(status).value, message);
            IsWinner([p], 0) &&
            Translate(p) == SimplePresence(Common.StatusSpecMap()[status].kind, status, message)
  {
  }

  /** Every settable status of the table except "offline" is a keyword `setPresence` accepts. */
  lemma SettableKeywordsAreAccepted(status: string)
    requires status in Common.StatusSpecMap() && Common.StatusSpecMap()[status].maySetOnSelf
    ensures StatusTypeForKeyword(status).Some? <==> status != "offline"
  {
  }
}
