/**
 * The handle registry of the connection (uniquehandlemap.cc): an
 * append-only list of bare JIDs in which the handle of a JID is its
 * position plus one.
 */
module Handles {
  import opened Tp

  /** No JID occurs twice in the list. */
  predicate NoDuplicates(s: seq<string>) {
    forall i, j :: 0 <= i < j < |s| ==> s[i] != s[j]
  }

  /** QList::indexOf: the first position of `x` in `s`, or -1 when it does not occur. */
  function IndexOf(s: seq<string>, x: string): (r: int)
    ensures -1 <= r < |s|
    ensures r == -1 <==> x !in s
    ensures r >= 0 ==> s[r] == x && forall k :: 0 <= k < r ==> s[k] != x
  {
    if |s| == 0 then -1
    else if s[0] == x then 0
    else
      var r := IndexOf(s[1..], x);
      if r == -1 then -1 else r + 1
  }

  /** The list after a forward lookup of `jid`: unchanged if known, extended by `jid` otherwise. */
  function Allocate(known: seq<string>, jid: string): seq<string> {
    if jid in known then known else known + [jid]
  }

  /** The handle a forward lookup of `jid` returns (index + 1 of its entry after allocation). */
  function HandleOf(known: seq<string>, jid: string): nat {
    var idx := IndexOf(known, jid);
    if idx != -1 then idx + 1 else |known| + 1
  }

  /**
   * The JID a reverse lookup of `handle` returns; the empty string when the
   * handle names no entry. Handle 0 names no entry (see IdentifierAsWritten).
   */
  function IdentifierOf(known: seq<string>, handle: nat): string {
    if handle == 0 || handle > |known| then "" else known[handle - 1]
  }

  /**
   * The reverse lookup as the source writes it: handles above the size give
   * the empty string, every other handle reads position `handle - 1`. `None`
   * stands for a read outside the list.
   */
  function IdentifierAsWritten(known: seq<string>, handle: nat): Option<string> {
    if handle > |known| then Some("")
    else if handle - 1 < 0 then None
    else Some(known[handle - 1])
  }

  /** Handle 0 passes the range check and leads to a read at position -1. */
  lemma HandleZeroReadsOutsideList(known: seq<string>)
    ensures !(0 > |known|)
    ensures IdentifierAsWritten(known, 0) == None
  {
  }

  /** For every handle but 0 the corrected lookup agrees with the source. */
  lemma IdentifierAgreesAwayFromZero(known: seq<string>, handle: nat)
    requires handle >= 1
    ensures IdentifierAsWritten(known, handle) == Some(IdentifierOf(known, handle))
  {
  }

  /** A known JID keeps its handle and the list is unchanged. */
  lemma LookupKnownIsStable(known: seq<string>, jid: string)
    requires jid in known
    ensures Allocate(known, jid) == known
    ensures 1 <= HandleOf(known, jid) <= |known|
    ensures IdentifierOf(known, HandleOf(known, jid)) == jid
  {
  }

  /** An unseen JID is appended and receives the new list length as its handle. */
  lemma LookupUnseenAppends(known: seq<string>, jid: string)
    requires jid !in known
    ensures Allocate(known, jid) == known + [jid]
    ensures HandleOf(known, jid) == |known| + 1 == |Allocate(known, jid)|
  {
  }

  /** Round trip: the reverse lookup of the handle returned for `jid` gives `jid` back. */
  lemma RoundTrip(known: seq<string>, jid: string)
    ensures IdentifierOf(Allocate(known, jid), HandleOf(known, jid)) == jid
  {
  }

  /** Looking the same JID up again returns the same handle and changes nothing. */
  lemma LookupIdempotent(known: seq<string>, jid: string)
    ensures Allocate(Allocate(known, jid), jid) == Allocate(known, jid)
    ensures HandleOf(Allocate(known, jid), jid) == HandleOf(known, jid)
  {
    if jid !in known {
      assert Allocate(known, jid)[|known|] == jid;
    }
  }

  /** The forward lookup keeps the list free of duplicates. */
  lemma AllocatePreservesNoDuplicates(known: seq<string>, jid: string)
    requires NoDuplicates(known)
    ensures NoDuplicates(Allocate(known, jid))
  {
  }

  /** Over a duplicate-free list distinct JIDs get distinct handles. */
  lemma DistinctJidsDistinctHandles(known: seq<string>, a: string, b: string)
    requires NoDuplicates(known)
    requires a in known && b in known && a != b
    ensures HandleOf(known, a) != HandleOf(known, b)
  {
  }

  /** A handle names exactly one entry: reverse-then-forward is also the identity on known handles. */
  lemma HandleOfIdentifier(known: seq<string>, handle: nat)
    requires NoDuplicates(known)
    requires 1 <= handle <= |known|
    ensures HandleOf(known, IdentifierOf(known, handle)) == handle
  {
  }

  /** Appending keeps every existing entry: lookups of old handles are unaffected. */
  lemma AllocateKeepsOldHandles(known: seq<string>, jid: string, handle: nat)
    requires 1 <= handle <= |known|
    ensures IdentifierOf(Allocate(known, jid), handle) == IdentifierOf(known, handle)
  {
  }

  /** More generally, any extension of the list keeps the JID of every existing handle. */
  lemma ExtensionKeepsOldHandles(known: seq<string>, longer: seq<string>, handle: nat)
    requires known <= longer
    requires 1 <= handle <= |known|
    ensures 1 <= handle <= |longer|
    ensures IdentifierOf(longer, handle) == IdentifierOf(known, handle)
  {
    assert longer[handle - 1] == known[handle - 1];
  }

  /** The forward lookup of a sequence of identifiers, one after the other. */
  function AllocateAll(known: seq<string>, jids: seq<string>): seq<string>
    decreases |jids|
  {
    if |jids| == 0 then known else AllocateAll(Allocate(known, jids[0]), jids[1..])
  }

  /** After allocating a sequence of JIDs, the old list is a prefix and each JID is present. */
  lemma {:induction false} AllocateAllExtends(known: seq<string>, jids: seq<string>)
    requires NoDuplicates(known)
    ensures NoDuplicates(AllocateAll(known, jids))
    ensures known <= AllocateAll(known, jids)
    ensures forall j :: j in jids ==> j in AllocateAll(known, jids)
    ensures |AllocateAll(known, jids)| <= |known| + |jids|
    decreases |jids|
  {
    if |jids| > 0 {
      var next := Allocate(known, jids[0]);
      AllocatePreservesNoDuplicates(known, jids[0]);
      AllocateAllExtends(next, jids[1..]);
      forall j | j in jids ensures j in AllocateAll(known, jids) {
        if j != jids[0] {
          assert j in jids[1..];
        } else {
          assert next[IndexOf(next, j)] == j;
        }
      }
    }
  }

  /** Extending `jids` by one more identifier allocates that one last. */
  lemma {:induction false} AllocateAllSnoc(known: seq<string>, jids: seq<string>, jid: string)
    ensures AllocateAll(known, jids + [jid]) == Allocate(AllocateAll(known, jids), jid)
    decreases |jids|
  {
    if |jids| > 0 {
      assert (jids + [jid])[1..] == jids[1..] + [jid];
      AllocateAllSnoc(Allocate(known, jids[0]), jids[1..], jid);
    }
  }

  /** `handles` names `ids` one for one in the list `known`. */
  ghost predicate NamesAll(known: seq<string>, handles: seq<nat>, ids: seq<string>) {
    |handles| == |ids| &&
    forall k :: 0 <= k < |ids| ==> 1 <= handles[k] <= |known| && IdentifierOf(known, handles[k]) == ids[k]
  }

  /** Looking up one more identifier after a series of lookups extends both the list and the handles. */
  lemma LookupOneMore(known0: seq<string>, ids: seq<string>, i: nat, before: seq<string>, handles: seq<nat>)
    requires i < |ids|
    requires before == AllocateAll(known0, ids[..i])
    requires NamesAll(before, handles, ids[..i])
    ensures Allocate(before, ids[i]) == AllocateAll(known0, ids[..i + 1])
    ensures NamesAll(Allocate(before, ids[i]), handles + [HandleOf(before, ids[i])], ids[..i + 1])
  {
    assert ids[..i + 1] == ids[..i] + [ids[i]];
    AllocateAllSnoc(known0, ids[..i], ids[i]);
    RoundTrip(before, ids[i]);
    forall k | 0 <= k < i
      ensures IdentifierOf(Allocate(before, ids[i]), handles[k]) == ids[k]
    {
      AllocateKeepsOldHandles(before, ids[i], handles[k]);
    }
  }

  class UniqueHandleMap {
    /** m_knownHandles */
    var known: seq<string>

    ghost predicate Valid()
      reads this
    {
      NoDuplicates(known)
    }

    constructor ()
      ensures Valid() && known == []
    {
      known := [];
    }

    /** `operator[](uint)`: the JID of `handle`, or the empty string. */
    method Identifier(handle: nat) returns (jid: string)
      ensures jid == IdentifierOf(known, handle)
      ensures jid != "" ==> exists k :: 0 <= k < |known| && known[k] == jid && handle == k + 1
      ensures handle > |known| ==> jid == ""
    {
      if handle > |known| || handle == 0 {
        return "";
      }
      jid := known[handle - 1];
    }

    /** `operator[](const QString &)`: the handle of `jid`, allocated if `jid` is new. */
    method HandleFor(jid: string) returns (handle: nat)
      requires Valid()
      modifies this
      ensures Valid()
      ensures known == Allocate(old(known), jid)
      ensures handle == HandleOf(old(known), jid)
      ensures 1 <= handle <= |known|
      ensures IdentifierOf(known, handle) == jid
      ensures old(known) <= known
    {
      var idx := IndexOf(known, jid);
      if idx != -1 {
        return idx + 1;
      }
      known := known + [jid];
      handle := |known|;
    }
  }
}
