/**
 * Properties of the registry's value view: what resolving a room id and
 * joining a player do to the map of rooms, and what damage leaves.
 */
module GameProperties {
  import opened Game

  /** Every room is still in the state it was created in. */
  predicate AllWaiting(view: map<string, RoomView>) {
    forall k | k in view :: view[k].state == Waiting
  }

  /**
   * Resolving an id keeps every room; it adds one empty waiting room exactly
   * when the id was absent, and resolving it again changes nothing.
   */
  lemma ResolveAddsAtMostOne(view: map<string, RoomView>, roomID: string)
    ensures var r := Resolve(view, roomID);
            && r.Keys == view.Keys + {roomID}
            && (forall k | k in view :: r[k] == view[k])
            && (roomID !in view ==> r[roomID] == RoomView(Waiting, map[]))
            && Resolve(r, roomID) == r
  {
  }

  /**
   * A join leaves every other room as it was, keeps the room's state, and
   * changes only the joining player's entry in its player map.
   */
  lemma JoinedChangesOnePlayer(view: map<string, RoomView>, roomID: string, p: Player)
    ensures var r := Joined(view, roomID, p);
            && r.Keys == view.Keys + {roomID}
            && (forall k | k in view && k != roomID :: r[k] == view[k])
            && r[roomID].state == Resolve(view, roomID)[roomID].state
            && r[roomID].players.Keys == Resolve(view, roomID)[roomID].players.Keys + {p.id}
            && r[roomID].players[p.id] == p
            && (forall q | q in r[roomID].players && q != p.id ::
                  r[roomID].players[q] == Resolve(view, roomID)[roomID].players[q])
  {
  }

  /** Joining twice under the same player id keeps only the second player. */
  lemma JoinTwiceOverwrites(view: map<string, RoomView>, roomID: string, p: Player, q: Player)
    requires p.id == q.id
    ensures Joined(Joined(view, roomID, p), roomID, q) == Joined(view, roomID, q)
  {
    var v := Resolve(view, roomID);
    var once := Joined(view, roomID, p);
    assert Resolve(once, roomID) == once;
    assert v[roomID].players[p.id := p][q.id := q] == v[roomID].players[q.id := q];
  }

  /** No registry operation moves a room out of the waiting state. */
  lemma StatesStayWaiting(view: map<string, RoomView>, roomID: string, p: Player)
    requires AllWaiting(view)
    ensures AllWaiting(Resolve(view, roomID))
    ensures AllWaiting(Joined(view, roomID, p))
  {
  }

  /** For the usual inputs (health and damage not negative) damage is max(0, health - amount). */
  lemma DamageClamps(health: int64, amount: int64)
    requires health >= 0 && amount >= 0
    ensures DamagedHealth(health, amount) as int == if health <= amount then 0 else health as int - amount as int
    ensures DamagedHealth(health, amount) <= health
  {
  }
}
