/** Vocabulary shared by every actor of the game server engine. */
module Types {

  datatype Option<+T> = None | Some(value: T)

  datatype Result<+T> = Ok(value: T) | Err(error: Error)

  datatype Error =
    | AuthFailed | Unavailable | AlreadyConnected | RoomNotFound | RoomFull
    | Denied | Limit | Busy | Closed | AlreadyQueued

  // Session and account ids are random UUIDs in the engine: only their identity matters.
  type SessionId = nat
  type AccountId = nat
  type Token = nat
  type RoomId = nat

  datatype Principal = Account(id: AccountId) | Guest

  const U64_MAX: nat := 0xFFFF_FFFF_FFFF_FFFF
  const GLOBAL_ROOM: RoomId := 0

  datatype Config = Config(
    maxSessions: nat, maxRooms: nat, maxRoomPlayers: nat, maxRoomsPerSession: nat,
    outboundCapacity: nat, matchSize: nat, messagesPerSecond: nat, grace: nat)
  {
    /** The configurations with which the engine agrees to start. */
    predicate Accepted() {
      && maxSessions > 0 && maxRooms >= 1 && maxRoomPlayers > 0
      && maxRoomsPerSession >= 2 && outboundCapacity >= 2
      && matchSize <= maxRoomPlayers && messagesPerSecond > 0 && grace > 0
    }
  }

  lemma PutSame<K, V>(m: map<K, V>, k: K)
    requires k in m
    ensures m[k := m[k]] == m
  {
  }

  lemma {:induction false} SubsetSize<T>(a: set<T>, b: set<T>)
    requires a <= b
    ensures |a| <= |b| && (|a| == |b| ==> a == b)
  {
    if a != {} {
      var x :| x in a;
      SubsetSize(a - {x}, b - {x});
    }
  }
}
