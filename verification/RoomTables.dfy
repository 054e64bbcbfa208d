/** The two SQLite tables of the Room API and the statements run on them
    (room-api/internal/store/store.go). Every statement is atomic. */
module RoomTables {
  import opened Outcomes

  type RoomId = nat
  type Code = nat       // a room code; equality is all that matters here
  type Secret = nat     // the clear text of a setup key
  type IdemKey = nat    // an idempotency key; NO_KEY stands for ""
  type URL = nat

  const NO_KEY: IdemKey := 0

  /** SHA-256 of a code, taken to be injective. */
  datatype Digest = Digest(code: Code)

  /** AES-GCM text: Open(Seal(x)) = x, and the empty column default does not open. */
  datatype Cipher<+T> = Blank | Sealed(clear: T)

  function Open<T>(c: Cipher<T>): Option<T> {
    match c
    case Blank => None
    case Sealed(clear) => Some(clear)
  }

  /** The status strings of both tables; an operation is never Disabled. */
  datatype Status = Creating | Active | Error | Disabled

  datatype Room = Room(
    codeHash: Digest,
    groupId: Option<nat>,
    setupKeyId: Option<nat>,
    setupKey: Cipher<Secret>,
    policyId: Option<nat>,
    status: Status)

  datatype Response = Response(roomId: RoomId, code: Option<Code>, managementURL: URL, setupKey: Secret)

  datatype Operation = Operation(roomId: RoomId, response: Cipher<Response>, status: Status)

  datatype Tables = Tables(rooms: map<RoomId, Room>, ops: map<IdemKey, Operation>) {

    // INSERT OR IGNORE INTO operations
    function BeginOperation(key: IdemKey, roomId: RoomId): Tables {
      this.(ops := if key in ops then ops else ops[key := Operation(roomId, Blank, Creating)])
    }

    function ResetOperation(key: IdemKey, roomId: RoomId): Tables {
      this.(ops := if key in ops then ops[key := Operation(roomId, Blank, Creating)] else ops)
    }

    function SaveOperation(key: IdemKey, response: Cipher<Response>, status: Status): Tables {
      this.(ops := if key in ops then ops[key := Operation(ops[key].roomId, response, status)] else ops)
    }

    // INSERT INTO rooms violates the primary key or UNIQUE(code_hash)
    predicate Clashes(id: RoomId, codeHash: Digest) {
      id in rooms || exists y :: y in rooms && rooms[y].codeHash == codeHash
    }

    function CreateRoom(id: RoomId, codeHash: Digest): Tables {
      this.(rooms := if Clashes(id, codeHash) then rooms
                     else rooms[id := Room(codeHash, None, None, Blank, None, Creating)])
    }

    function UpdateExternalIDs(id: RoomId, group: Option<nat>, key: Option<nat>, policy: Option<nat>,
                               sealed: Cipher<Secret>): Tables {
      this.(rooms := if id in rooms
                     then rooms[id := Room(rooms[id].codeHash, group, key, sealed, policy, rooms[id].status)]
                     else rooms)
    }

    function SetStatus(id: RoomId, status: Status): Tables {
      this.(rooms := if id in rooms then rooms[id := rooms[id].(status := status)] else rooms)
    }

    // GetRoomByCodeHash answers with this row, or with no row at all.
    ghost predicate Finds(codeHash: Digest, id: RoomId) {
      id in rooms && rooms[id].codeHash == codeHash
    }

    ghost predicate NoSuchCode(codeHash: Digest) {
      forall y :: y in rooms ==> rooms[y].codeHash != codeHash
    }

    // The UNIQUE constraint on code_hash.
    ghost predicate UniqueCodes() {
      forall x, y :: x in rooms && y in rooms && rooms[x].codeHash == rooms[y].codeHash ==> x == y
    }
  }
}
