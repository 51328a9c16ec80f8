/**
 * The in-memory room registry (internal/game): a process-wide map from room
 * id to room, rooms created on first reference, and the three mutators that
 * join, move and damage players. The source serialises each operation with a
 * registry lock and a per-room lock; here the operations run one at a time.
 */
module Game {

  /** Go's `int` on the 64-bit targets the server is built for. */
  newtype int64 = x: int | -0x8000_0000_0000_0000 <= x < 0x8000_0000_0000_0000

  const MinInt64: int := -0x8000_0000_0000_0000
  const MaxInt64: int := 0x7fff_ffff_ffff_ffff

  /** A `float64` coordinate; the core only ever assigns coordinates. */
  type Coord = real

  /** The opaque connection a player joined from. */
  datatype ConnHandle = ConnHandle(id: nat)

  /** The state every room is created in; the core never changes it. */
  const Waiting := "waiting"

  /** `a - b` on 64-bit two's-complement integers: the exact difference, wrapped into range. */
  function Sub64(a: int64, b: int64): (r: int64)
    ensures (r as int - (a as int - b as int)) % 0x1_0000_0000_0000_0000 == 0
  {
    var exact := a as int - b as int;
    if exact > MaxInt64 then (exact - 0x1_0000_0000_0000_0000) as int64
    else if exact < MinInt64 then (exact + 0x1_0000_0000_0000_0000) as int64
    else exact as int64
  }

  /**
   * The health `ApplyDamage` leaves: `health - amount` in 64-bit arithmetic,
   * then clamped at zero. Never negative; equal to max(0, health - amount)
   * whenever the difference fits in 64 bits. An upward overflow (only possible
   * with a negative amount) wraps to a negative value and so ends at zero; a
   * downward one (only possible from a negative health) wraps to a positive value.
   */
  function DamagedHealth(health: int64, amount: int64): (r: int64)
    ensures r >= 0
    ensures MinInt64 <= health as int - amount as int <= MaxInt64 ==>
              r as int == if health as int - amount as int <= 0 then 0 else health as int - amount as int
    ensures health as int - amount as int > MaxInt64 ==> r == 0
    ensures health as int - amount as int < MinInt64 ==>
              r as int == health as int - amount as int + 0x1_0000_0000_0000_0000
  {
    var d := Sub64(health, amount);
    if d <= 0 then 0 else d
  }

  class Player {
    const id: string
    const name: string
    var x: Coord
    var y: Coord
    var health: int64
    const conn: ConnHandle

    constructor (id: string, name: string, health: int64, conn: ConnHandle)
      ensures this.id == id && this.name == name && this.health == health && this.conn == conn
      ensures x == 0.0 && y == 0.0
    {
      this.id, this.name, this.health, this.conn := id, name, health, conn;
      x, y := 0.0, 0.0;
    }
  }

  class GameRoom {
    const id: string
    var players: map<string, Player>
    var state: string

    constructor (id: string)
      ensures this.id == id && players == map[] && state == Waiting
    {
      this.id := id;
      players := map[];
      state := Waiting;
    }

    /** Every player sits under its own id. */
    ghost predicate KeyedPlayers()
      reads this
    {
      forall p | p in players :: players[p].id == p
    }
  }

  /** What a room holds, as a value: its state and its player map. */
  datatype RoomView = RoomView(state: string, players: map<string, Player>)

  /** The registry after resolving `roomID`: unchanged if present, else with a new empty waiting room. */
  function Resolve(view: map<string, RoomView>, roomID: string): map<string, RoomView> {
    if roomID in view then view else view[roomID := RoomView(Waiting, map[])]
  }

  /** The registry after `p` joins `roomID`: the room resolved, then `p` under its id there. */
  function Joined(view: map<string, RoomView>, roomID: string, p: Player): map<string, RoomView> {
    var v := Resolve(view, roomID);
    v[roomID := v[roomID].(players := v[roomID].players[p.id := p])]
  }

  class Registry {
    var rooms: map<string, GameRoom>
    /** The registry as a value: each room's state and player map. */
    ghost var view: map<string, RoomView>

    /**
     * Every room sits under its own id, every player under its own id, and
     * `view` shows each room's current state and players.
     */
    ghost predicate Valid()
      reads this, rooms.Values
    {
      && view.Keys == rooms.Keys
      && forall k | k in rooms ::
           && rooms[k].id == k
           && view[k] == RoomView(rooms[k].state, rooms[k].players)
           && rooms[k].KeyedPlayers()
    }

    /** The room object a call on `roomID` may change. */
    function RoomFrame(roomID: string): set<GameRoom>
      reads this
    {
      if roomID in rooms then {rooms[roomID]} else {}
    }

    /** The player object a call on `roomID` and `playerID` may change. */
    function PlayerFrame(roomID: string, playerID: string): set<Player>
      reads this, rooms.Values
    {
      if roomID in rooms && playerID in rooms[roomID].players then {rooms[roomID].players[playerID]} else {}
    }

    constructor ()
      ensures Valid() && rooms == map[]
    {
      rooms := map[];
      view := map[];
    }

    /** Returns the room under `roomID`, first inserting an empty waiting room if there is none. */
    method GetOrCreateRoom(roomID: string) returns (room: GameRoom)
      requires Valid()
      modifies this
      ensures Valid()
      ensures roomID in rooms && room == rooms[roomID] && room.id == roomID
      ensures roomID in old(rooms) ==> rooms == old(rooms)
      ensures roomID !in old(rooms) ==>
                fresh(room) && room.players == map[] && room.state == Waiting
                && rooms == old(rooms)[roomID := room]
      ensures view == Resolve(old(view), roomID)
    {
      if roomID in rooms {
        room := rooms[roomID];
      } else {
        room := new GameRoom(roomID);
        rooms := rooms[roomID := room];
        view := view[roomID := RoomView(Waiting, map[])];
      }
    }

    /** Puts `p` under `p.id` in the room, replacing any earlier player with that id. */
    method AddPlayerToRoom(roomID: string, p: Player)
      requires Valid()
      modifies this, RoomFrame(roomID)
      ensures Valid()
      ensures forall k | k in old(rooms) :: k in rooms && rooms[k] == old(rooms[k])
      ensures roomID in rooms
      ensures forall k | k in rooms :: k in old(rooms) || (k == roomID && fresh(rooms[k]))
      ensures view == Joined(old(view), roomID, p)
    {
      var room := GetOrCreateRoom(roomID);
      ghost var v := view;
      label Resolved:
      room.players := room.players[p.id := p];
      view := view[roomID := RoomView(room.state, room.players)];
      forall k | k in rooms
        ensures rooms[k].id == k && view[k] == RoomView(rooms[k].state, rooms[k].players)
        ensures rooms[k].KeyedPlayers()
      {
        if k != roomID {
          assert rooms[k].id != room.id;
          assert old@Resolved(rooms[k].KeyedPlayers());
        }
      }
      assert view == v[roomID := v[roomID].(players := v[roomID].players[p.id := p])];
    }

    /**
     * Sets the position of `playerID` in `roomID` and reports whether the player
     * was there. Only that player object may change (see the frame); the room
     * and player maps stay as they were, apart from resolving `roomID`.
     */
    method MovePlayer(roomID: string, playerID: string, x: Coord, y: Coord) returns (moved: bool)
      requires Valid()
      modifies this, PlayerFrame(roomID, playerID)
      ensures Valid()
      ensures forall k | k in old(rooms) :: k in rooms && rooms[k] == old(rooms[k])
      ensures view == Resolve(old(view), roomID)
      ensures moved <==> roomID in old(rooms) && playerID in old(rooms[roomID].players)
      ensures moved ==>
                var p := old(rooms[roomID].players[playerID]);
                p.x == x && p.y == y && p.health == old(p.health)
    {
      var room := GetOrCreateRoom(roomID);
      if playerID !in room.players {
        return false;
      }
      var player := room.players[playerID];
      player.x := x;
      player.y := y;
      return true;
    }

    /**
     * Lowers the health of `targetID` in `roomID` by `amount`, clamped at zero,
     * and reports whether the player was there. Only that player may change.
     */
    method ApplyDamage(roomID: string, targetID: string, amount: int64) returns (hit: bool)
      requires Valid()
      modifies this, PlayerFrame(roomID, targetID)
      ensures Valid()
      ensures forall k | k in old(rooms) :: k in rooms && rooms[k] == old(rooms[k])
      ensures view == Resolve(old(view), roomID)
      ensures hit <==> roomID in old(rooms) && targetID in old(rooms[roomID].players)
      ensures hit ==>
                var p := old(rooms[roomID].players[targetID]);
                p.health == DamagedHealth(old(p.health), amount) && p.health >= 0
                && p.x == old(p.x) && p.y == old(p.y)
    {
      var room := GetOrCreateRoom(roomID);
      if targetID !in room.players {
        return false;
      }
      var target := room.players[targetID];
      target.health := Sub64(target.health, amount);
      if target.health <= 0 {
        target.health := 0;
      }
      return true;
    }
  }
}
