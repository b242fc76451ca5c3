/** The connection registry shared by every pool
    (bootstrap/util/client_pool_helper.go): a map from room id to the map
    from user id to that user's connection, kept so that no room maps to an
    empty inner map. The mutex that guards it is left out. */
module ClientPoolHelper {

  type RoomId = nat
  type UserId = nat

  /** No room is present with no clients. */
  predicate NoEmptyRooms<T>(m: map<RoomId, map<UserId, T>>) {
    forall r :: r in m ==> |m[r]| > 0
  }

  /** `len(poolMap[roomID])`, 0 for an absent room. */
  function RoomCount<T>(m: map<RoomId, map<UserId, T>>, r: RoomId): (n: nat)
    ensures n == 0 <==> r !in m || m[r] == map[]
  {
    if r in m then |m[r]| else 0
  }

  /** The registry after `RegisterClient(poolMap, r, u, c)`. */
  function Registered<T>(m: map<RoomId, map<UserId, T>>, r: RoomId, u: UserId, c: T): map<RoomId, map<UserId, T>> {
    var clients: map<UserId, T> := if r in m then m[r] else map[];
    m[r := clients[u := c]]
  }

  /** The registry after `UnregisterClient(poolMap, r, u)`. */
  function Unregistered<T>(m: map<RoomId, map<UserId, T>>, r: RoomId, u: UserId): map<RoomId, map<UserId, T>> {
    if r !in m then m
    else
      var clients: map<UserId, T> := m[r] - {u};
      if |clients| == 0 then m - {r} else m[r := clients]
  }

  /** Registering records the client under its room and user, creates the
      room's inner map only when the room was absent, leaves every other
      room and every other user of the room alone, grows the room by one
      exactly when the user was not in it yet, and keeps every room
      non-empty. */
  lemma RegisteredShape<T>(m: map<RoomId, map<UserId, T>>, r: RoomId, u: UserId, c: T)
    ensures var m' := Registered(m, r, u, c);
      && r in m' && u in m'[r] && m'[r][u] == c
      && m'.Keys == m.Keys + {r}
      && (forall q :: q in m && q != r ==> m'[q] == m[q])
      && (r !in m ==> m'[r] == map[u := c])
      && (r in m ==> forall v :: v in m[r] && v != u ==> v in m'[r] && m'[r][v] == m[r][v])
      && (r in m && u in m[r] ==> RoomCount(m', r) == RoomCount(m, r))
      && ((r !in m || u !in m[r]) ==> RoomCount(m', r) == RoomCount(m, r) + 1)
      && (NoEmptyRooms(m) ==> NoEmptyRooms(m'))
  {
    var m' := Registered(m, r, u, c);
    if r in m && u !in m[r] {
      assert m'[r].Keys == m[r].Keys + {u};
    }
  }

  /** Unregistering removes only that user from that room, removes the
      room once it has no clients left, and does nothing for an absent
      room; every room stays non-empty. */
  lemma UnregisteredShape<T>(m: map<RoomId, map<UserId, T>>, r: RoomId, u: UserId)
    ensures var m' := Unregistered(m, r, u);
      && (r !in m ==> m' == m)
      && (forall q :: q != r ==> (q in m' <==> q in m) && (q in m ==> m'[q] == m[q]))
      && (r in m' ==> r in m && m'[r] == m[r] - {u} && |m'[r]| > 0)
      && (r in m && r !in m' ==> m[r].Keys <= {u})
      && (forall v :: r in m' && v in m'[r] ==> v != u)
      && (NoEmptyRooms(m) ==> NoEmptyRooms(m'))
  {
    if r in m && |m[r] - {u}| == 0 {
      assert (m[r] - {u}).Keys == {};
      forall v | v in m[r] ensures v == u {
        assert v !in (m[r] - {u}).Keys;
      }
    }
  }

  /** A newcomer who registers and then unregisters leaves the registry as
      it was. */
  lemma {:induction false} RegisterThenUnregister<T>(m: map<RoomId, map<UserId, T>>, r: RoomId, u: UserId, c: T)
    requires NoEmptyRooms(m)
    requires r !in m || u !in m[r]
    ensures Unregistered(Registered(m, r, u, c), r, u) == m
  {
    var m' := Registered(m, r, u, c);
    if r in m {
      assert m'[r] - {u} == m[r];
      assert |m[r]| > 0;
    } else {
      assert m'[r] - {u} == map[];
      assert m' - {r} == m;
    }
  }

  /** The registry of one pool; `rooms` is the `map[uint]map[uint]T` the
      helpers receive by reference. */
  class PoolMap<T> {
    var rooms: map<RoomId, map<UserId, T>>

    constructor()
      ensures rooms == map[]
    {
      rooms := map[];
    }

    /** `RegisterClient`. */
    method RegisterClient(roomId: RoomId, userId: UserId, client: T)
      modifies this
      ensures rooms == Registered(old(rooms), roomId, userId, client)
    {
      if roomId !in rooms {
        rooms := rooms[roomId := map[]];
      }
      var clients: map<UserId, T> := rooms[roomId][userId := client];
      rooms := rooms[roomId := clients];
    }

    /** `UnregisterClient`. */
    method UnregisterClient(roomId: RoomId, userId: UserId)
      modifies this
      ensures rooms == Unregistered(old(rooms), roomId, userId)
    {
      if roomId in rooms {
        var clients: map<UserId, T> := rooms[roomId] - {userId};
        rooms := rooms[roomId := clients];
        if |clients| == 0 {
          rooms := rooms - {roomId};
        }
      }
    }

    /** `len(Rooms[roomID])`. */
    function Count(roomId: RoomId): (n: nat)
      reads this
      ensures n == 0 <==> (roomId !in rooms || rooms[roomId] == map[])
    {
      RoomCount(rooms, roomId)
    }
  }
}
