/** The store and the NetBird client as objects: every method is one statement or one
    request and changes its own fields (room-api/internal/store/store.go,
    room-api/internal/netbird/client.go). How it goes is its `fate`, an input: the caller
    sees no more of it than an answer or an error. */
module RoomStore {
  import opened Outcomes
  import opened RoomTables
  import opened NetBirdState
  import opened Provisioning

  class Store {
    var rooms: map<RoomId, Room>
    var operations: map<IdemKey, Operation>

    function State(): Tables
      reads this
    {
      Tables(rooms, operations)
    }

    constructor ()
      ensures State() == Tables(map[], map[])
    {
      rooms, operations := map[], map[];
    }

    method BeginOperation(key: IdemKey, roomId: RoomId, fate: Fate) returns (created: bool, err: bool)
      modifies this
      ensures err == !fate.Done?
      ensures created == (key !in old(operations))
      ensures State() == if fate.Applied() then old(State()).BeginOperation(key, roomId) else old(State())
    {
      created := key !in operations;
      if !fate.Refused? && created {
        operations := operations[key := Operation(roomId, Blank, Creating)];
      }
      err := !fate.Done?;
    }

    method GetOperation(key: IdemKey, fate: Fate) returns (op: Option<Operation>, err: bool)
      ensures err == !fate.Done?
      ensures op == if key in operations then Some(operations[key]) else None
    {
      op := if key in operations then Some(operations[key]) else None;
      err := !fate.Done?;
    }

    method SaveOperation(key: IdemKey, response: Cipher<Response>, status: Status, fate: Fate) returns (err: bool)
      modifies this
      ensures err == !fate.Done?
      ensures State() == if fate.Applied() then old(State()).SaveOperation(key, response, status) else old(State())
    {
      if !fate.Refused? && key in operations {
        operations := operations[key := operations[key].(response := response, status := status)];
      }
      err := !fate.Done?;
    }

    method ResetOperation(key: IdemKey, roomId: RoomId, fate: Fate) returns (err: bool)
      modifies this
      ensures err == !fate.Done?
      ensures State() == if fate.Applied() then old(State()).ResetOperation(key, roomId) else old(State())
    {
      if !fate.Refused? && key in operations {
        operations := operations[key := Operation(roomId, Blank, Creating)];
      }
      err := !fate.Done?;
    }

    method CreateRoom(id: RoomId, codeHash: Digest, fate: Fate) returns (err: bool)
      modifies this
      ensures err == (!fate.Done? || old(State()).Clashes(id, codeHash))
      ensures State() == if fate.Applied() then old(State()).CreateRoom(id, codeHash) else old(State())
    {
      var clash := id in rooms || exists y :: y in rooms && rooms[y].codeHash == codeHash;
      if !fate.Refused? && !clash {
        rooms := rooms[id := Room(codeHash, None, None, Blank, None, Creating)];
      }
      err := !fate.Done? || clash;
    }

    method UpdateExternalIDs(id: RoomId, group: Option<nat>, key: Option<nat>, policy: Option<nat>,
                             sealed: Cipher<Secret>, fate: Fate)
      returns (err: bool)
      modifies this
      ensures err == !fate.Done?
      ensures State() ==
                if fate.Applied() then old(State()).UpdateExternalIDs(id, group, key, policy, sealed) else old(State())
    {
      if !fate.Refused? && id in rooms {
        rooms := rooms[id := rooms[id].(groupId := group, setupKeyId := key, setupKey := sealed, policyId := policy)];
      }
      err := !fate.Done?;
    }

    method SetStatus(id: RoomId, status: Status, fate: Fate) returns (err: bool)
      modifies this
      ensures err == !fate.Done?
      ensures State() == if fate.Applied() then old(State()).SetStatus(id, status) else old(State())
    {
      if !fate.Refused? && id in rooms {
        rooms := rooms[id := rooms[id].(status := status)];
      }
      err := !fate.Done?;
    }

    method GetRoomByCodeHash(codeHash: Digest, fate: Fate) returns (found: Option<RoomId>, err: bool)
      ensures err == !fate.Done?
      ensures match found case Some(x) => State().Finds(codeHash, x) case None => State().NoSuchCode(codeHash)
    {
      found := None;
      if exists y :: y in rooms && rooms[y].codeHash == codeHash {
        var x :| x in rooms && rooms[x].codeHash == codeHash;
        found := Some(x);
      }
      err := !fate.Done?;
    }

    method GetRoom(id: RoomId, fate: Fate) returns (row: Option<Room>, err: bool)
      ensures err == !fate.Done?
      ensures row == if id in rooms then Some(rooms[id]) else None
    {
      row := if id in rooms then Some(rooms[id]) else None;
      err := !fate.Done?;
    }

    /** The records still creating, in whatever order the database yields them. */
    method ListCreating(fate: Fate) returns (todo: seq<Pending>, err: bool)
      ensures err == !fate.Done?
      ensures IsListing(operations, todo)
    {
      todo := [];
      var left := operations.Keys;
      while left != {}
        invariant left <= operations.Keys
        invariant forall i :: 0 <= i < |todo| ==>
          && todo[i].key in operations && todo[i].key !in left
          && operations[todo[i].key].status.Creating? && operations[todo[i].key].roomId == todo[i].roomId
        invariant forall i, j :: 0 <= i < j < |todo| ==> todo[i].key != todo[j].key
        invariant forall k :: k in operations && k !in left && operations[k].status.Creating? ==>
          exists i :: 0 <= i < |todo| && todo[i].key == k
        decreases left
      {
        var k :| k in left;
        left := left - {k};
        ghost var before := todo;
        if operations[k].status.Creating? {
          todo := todo + [Pending(k, operations[k].roomId)];
          assert todo[|before|].key == k;
        }
        assert forall i :: 0 <= i < |before| ==> todo[i] == before[i];
      }
      err := !fate.Done?;
    }
  }

  class NetBird {
    var groups: seq<Group>
    var keys: seq<SetupKey>
    var policies: seq<Policy>

    function State(): Remote
      reads this
    {
      Remote(groups, keys, policies)
    }

    method ListGroups(fate: Fate) returns (listing: seq<Group>, err: bool)
      ensures err == !fate.Done?
      ensures listing == groups
    {
      listing := groups;
      err := !fate.Done?;
    }

    method CreateGroup(name: RoomId, fate: Fate) returns (id: nat, err: bool)
      modifies this
      ensures err == !fate.Done? && id == |old(groups)|
      ensures State() == if fate.Applied() then old(State()).CreateGroup(name, true) else old(State())
    {
      id := |groups|;
      if !fate.Refused? { groups := groups + [Group(name, true, true)]; }
      err := !fate.Done?;
    }

    // NetBird draws the clear text.
    method CreateSetupKey(room: RoomId, drawn: Secret, fate: Fate) returns (id: nat, clear: Secret, err: bool)
      modifies this
      ensures err == !fate.Done? && id == |old(keys)| && clear == drawn
      ensures State() == if fate.Applied() then old(State()).CreateSetupKey(room, clear) else old(State())
    {
      id, clear := |keys|, drawn;
      if !fate.Refused? { keys := keys + [SetupKey(room, clear, Valid)]; }
      err := !fate.Done?;
    }

    method CreateRoomPolicy(room: RoomId, fate: Fate) returns (id: nat, err: bool)
      modifies this
      ensures err == !fate.Done? && id == |old(policies)|
      ensures State() == if fate.Applied() then old(State()).CreatePolicy(room) else old(State())
    {
      id := |policies|;
      if !fate.Refused? { policies := policies + [Policy(room, true)]; }
      err := !fate.Done?;
    }

    method DeleteGroup(id: Option<nat>, fate: Fate) returns (err: bool)
      modifies this
      ensures err == !fate.Done?
      ensures State() == if fate.Applied() then old(State()).DeleteGroup(id) else old(State())
    {
      if !fate.Refused? && id.Some? && id.value < |groups| {
        groups := groups[id.value := groups[id.value].(live := false)];
      }
      err := !fate.Done?;
    }

    method RevokeSetupKey(id: Option<nat>, fate: Fate) returns (err: bool)
      modifies this
      ensures err == !fate.Done?
      ensures State() == if fate.Applied() then old(State()).RevokeSetupKey(id) else old(State())
    {
      if !fate.Refused? && id.Some? && id.value < |keys| && keys[id.value].state.Valid? {
        keys := keys[id.value := keys[id.value].(state := Revoked)];
      }
      err := !fate.Done?;
    }

    method DeleteSetupKey(id: Option<nat>, fate: Fate) returns (err: bool)
      modifies this
      ensures err == !fate.Done?
      ensures State() == if fate.Applied() then old(State()).DeleteSetupKey(id) else old(State())
    {
      if !fate.Refused? && id.Some? && id.value < |keys| {
        keys := keys[id.value := keys[id.value].(state := Deleted)];
      }
      err := !fate.Done?;
    }

    method DeletePolicy(id: Option<nat>, fate: Fate) returns (err: bool)
      modifies this
      ensures err == !fate.Done?
      ensures State() == if fate.Applied() then old(State()).DeletePolicy(id) else old(State())
    {
      if !fate.Refused? && id.Some? && id.value < |policies| {
        policies := policies[id.value := policies[id.value].(live := false)];
      }
      err := !fate.Done?;
    }
  }
}
