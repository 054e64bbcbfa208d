/** The NetBird management server as the Room API sees it
    (room-api/internal/netbird/client.go): groups, setup keys and policies.
    An identifier is a position, so the server never hands one out twice. */
module NetBirdState {
  import opened Outcomes
  import opened RoomTables

  // `name` stands for "room-<name>". `made` tells a group made by the Room API from
  // one somebody else gave that name.
  datatype Group = Group(name: RoomId, made: bool, live: bool)

  datatype KeyState = Valid | Revoked | Deleted

  datatype SetupKey = SetupKey(room: RoomId, secret: Secret, state: KeyState)

  datatype Policy = Policy(room: RoomId, live: bool)

  datatype Remote = Remote(groups: seq<Group>, keys: seq<SetupKey>, policies: seq<Policy>) {

    function CreateGroup(name: RoomId, made: bool): Remote {
      this.(groups := groups + [Group(name, made, true)])
    }

    function CreateSetupKey(room: RoomId, secret: Secret): Remote {
      this.(keys := keys + [SetupKey(room, secret, Valid)])
    }

    function CreatePolicy(room: RoomId): Remote {
      this.(policies := policies + [Policy(room, true)])
    }

    // Deletes and revocations name an identifier read from a row or a local variable;
    // a blank one names nothing.
    predicate HasGroup(id: Option<nat>) { id.Some? && id.value < |groups| }

    predicate HasKey(id: Option<nat>) { id.Some? && id.value < |keys| }

    predicate HasPolicy(id: Option<nat>) { id.Some? && id.value < |policies| }

    function DeleteGroup(id: Option<nat>): Remote {
      this.(groups := if HasGroup(id) then groups[id.value := groups[id.value].(live := false)] else groups)
    }

    function RevokeSetupKey(id: Option<nat>): Remote {
      this.(keys := if HasKey(id) && keys[id.value].state.Valid?
                    then keys[id.value := keys[id.value].(state := Revoked)] else keys)
    }

    function DeleteSetupKey(id: Option<nat>): Remote {
      this.(keys := if HasKey(id) then keys[id.value := keys[id.value].(state := Deleted)] else keys)
    }

    function DeletePolicy(id: Option<nat>): Remote {
      this.(policies := if HasPolicy(id) then policies[id.value := policies[id.value].(live := false)] else policies)
    }
  }

  /** findGroup: the first live group of that name in the listing. */
  function FindGroup(groups: seq<Group>, name: RoomId, from: nat := 0): (found: Option<nat>)
    requires from <= |groups|
    ensures found.Some? ==>
              from <= found.value < |groups| && groups[found.value].live && groups[found.value].name == name
    ensures found.Some? ==> forall g :: from <= g < found.value ==> !(groups[g].live && groups[g].name == name)
    ensures found.None? ==> forall g :: from <= g < |groups| ==> !(groups[g].live && groups[g].name == name)
    decreases |groups| - from
  {
    if from == |groups| then None
    else if groups[from].live && groups[from].name == name then Some(from)
    else FindGroup(groups, name, from + 1)
  }
}
