/** The room service: rooms kept as one list under a storage key, newest first.
    Storage is a map from keys to what parsing the stored text yields; the room id
    and the creation time arrive as parameters. */
module RoomService {
  import opened Types
  import opened Strings

  const RoomsKey: string := "cfa_rooms_v1"

  datatype CreateRoomInput = CreateRoomInput(owner: string, roomName: string, isOpen: bool)

  datatype Room = Room(id: string, owner: string, roomName: string, isOpen: bool, createdAt: int)

  /** The stored text under the rooms key: empty, rejected by `JSON.parse`, a
      parsed value that is not an array, or an array of rooms. */
  datatype StoredRooms = EmptyText | Malformed | NotArray | RoomArray(rooms: seq<Room>)

  type Storage = map<string, StoredRooms>

  /** `loadRooms`: the stored array, or the empty list in every other case. */
  function LoadRooms(storage: Storage): (rooms: seq<Room>)
    ensures RoomsKey in storage && storage[RoomsKey].RoomArray? ==> rooms == storage[RoomsKey].rooms
    ensures RoomsKey !in storage || !storage[RoomsKey].RoomArray? ==> rooms == []
  {
    if RoomsKey in storage then
      match storage[RoomsKey]
      case RoomArray(rs) => rs
      case EmptyText => []
      case Malformed => []
      case NotArray => []
    else []
  }

  function HasRoomId(id: string): Room -> bool {
    (r: Room) => r.id == id
  }

  /** `rooms.find((r) => r.id === roomId) ?? null`: the first room with the id. */
  function FindRoom(rooms: seq<Room>, id: string): (r: Option<Room>)
    ensures r.Some? ==> exists i :: 0 <= i < |rooms| && rooms[i] == r.value
                                    && forall j :: 0 <= j < i ==> rooms[j].id != id
    ensures r.Some? ==> r.value.id == id
    ensures r.None? <==> forall j :: 0 <= j < |rooms| ==> rooms[j].id != id
  {
    match FirstIndex(rooms, HasRoomId(id))
    case None => None
    case Some(i) => assert HasRoomId(id)(rooms[i]); Some(rooms[i])
  }

  /** A room in front of the list is what a lookup of its id finds, whatever
      rooms with the same id follow it. */
  lemma {:induction false} FindFront(room: Room, rooms: seq<Room>)
    ensures FindRoom([room] + rooms, room.id) == Some(room)
  {
    assert HasRoomId(room.id)(([room] + rooms)[0]);
  }

  /** The locally stored rooms. */
  class RoomStore {
    var storage: Storage

    constructor (storage: Storage)
      ensures this.storage == storage
    {
      this.storage := storage;
    }

    /** `createRoom`: loads the list, puts the new room (trimmed name, owner and
        visibility copied, created now) in front, and writes the list back. */
    method CreateRoom(input: CreateRoomInput, id: string, now: int) returns (room: Room)
      modifies this
      ensures room == Room(id, input.owner, Trim(input.roomName), input.isOpen, now)
      ensures storage == old(storage)[RoomsKey := RoomArray([room] + LoadRooms(old(storage)))]
      ensures LoadRooms(storage) == [room] + LoadRooms(old(storage))
      ensures |LoadRooms(storage)| == |LoadRooms(old(storage))| + 1
      ensures FindRoom(LoadRooms(storage), id) == Some(room)
    {
      var rooms := LoadRooms(storage);
      room := Room(id, input.owner, Trim(input.roomName), input.isOpen, now);
      rooms := [room] + rooms;
      storage := storage[RoomsKey := RoomArray(rooms)];
      FindFront(room, LoadRooms(old(storage)));
    }

    /** `listRooms`: the stored list as it is. */
    method ListRooms() returns (rooms: seq<Room>)
      ensures rooms == LoadRooms(storage)
    {
      rooms := LoadRooms(storage);
    }

    /** `getRoom`: the first stored room with the id, if any. */
    method GetRoom(roomId: string) returns (r: Option<Room>)
      ensures r == FindRoom(LoadRooms(storage), roomId)
    {
      r := FindRoom(LoadRooms(storage), roomId);
    }
  }

  /** Creating a room and then looking up its id yields that room, and creating it
      leaves every older room listed after it in the same order. */
  method CreateThenGet(store: RoomStore, input: CreateRoomInput, id: string, now: int)
    returns (created: Room, found: Option<Room>, listed: seq<Room>, before: seq<Room>)
    modifies store
    ensures found == Some(created)
    ensures |listed| == |before| + 1 && listed[0] == created && listed[1..] == before
  {
    before := store.ListRooms();
    created := store.CreateRoom(input, id, now);
    found := store.GetRoom(id);
    listed := store.ListRooms();
  }
}
