/**
 * Lookups shared by the DKG and signing handlers: the roster search of the join handlers
 * (`participants_pubs.find`, ts-fserver/dist/server.js:196-200, 510-513) and the sender search
 * of every round handler (`Array.from(joined_participants.values()).find(p => p.socketId ===
 * socket.id)`, ts-fserver/dist/server.js:263, 295, 362, 552, 580), plus the invariant that
 * ties the joined participants to the configured roster.
 */
module Sessions {
  import opened Wrappers
  import opened JsMaps
  import opened Types
  import opened RosterKeys

  predicate RosterKeyMatches(entry: RosterEntry, key: string) {
    KeysMatch(KeyOf(entry.1), key)
  }

  /** The index of the first roster entry whose key matches `key` after normalisation. */
  function FindRosterEntry(pubs: seq<RosterEntry>, key: string): (r: Option<nat>)
    ensures r.Some? ==> r.value < |pubs| && RosterKeyMatches(pubs[r.value], key)
    ensures r.Some? ==> forall j :: 0 <= j < r.value ==> !RosterKeyMatches(pubs[j], key)
    ensures r.None? ==> forall j :: 0 <= j < |pubs| ==> !RosterKeyMatches(pubs[j], key)
  {
    if pubs == [] then None
    else if RosterKeyMatches(pubs[0], key) then Some(0)
    else match FindRosterEntry(pubs[1..], key)
      case Some(j) => Some(j + 1)
      case None => None
  }

  /** The index of the first participant, in join order, bound to connection `conn`. */
  function FindBySocket(ps: seq<Participant>, conn: ConnId): (r: Option<nat>)
    ensures r.Some? ==> r.value < |ps| && ps[r.value].socketId == conn
    ensures r.Some? ==> forall j :: 0 <= j < r.value ==> ps[j].socketId != conn
    ensures r.None? ==> forall j :: 0 <= j < |ps| ==> ps[j].socketId != conn
  {
    if ps == [] then None
    else if ps[0].socketId == conn then Some(0)
    else match FindBySocket(ps[1..], conn)
      case Some(j) => Some(j + 1)
      case None => None
  }

  function RosterUids(pubs: seq<RosterEntry>): set<int> {
    set i | 0 <= i < |pubs| :: pubs[i].0
  }

  /** Every joined slot is a configured roster slot, and each participant sits under its own uid. */
  ghost predicate JoinedFromRoster(joined: JsMap<int, Participant>, pubs: seq<RosterEntry>) {
    forall uid :: uid in joined.items ==> uid in RosterUids(pubs) && joined.items[uid].uid == uid
  }

  /** The joined count never exceeds the number of distinct roster slots. */
  lemma JoinedWithinRoster(joined: JsMap<int, Participant>, pubs: seq<RosterEntry>)
    requires JoinedFromRoster(joined, pubs)
    ensures Size(joined) <= |RosterUids(pubs)|
  {
    SizeIsKeyCount(joined);
    forall uid | uid in joined.items.Keys ensures uid in RosterUids(pubs) {
      assert uid in joined.items;
    }
    SubsetCard(joined.items.Keys, RosterUids(pubs));
  }

  lemma SubsetCard(a: set<int>, b: set<int>)
    requires a <= b
    ensures |a| <= |b|
  {
    assert b == a + (b - a);
  }
}
