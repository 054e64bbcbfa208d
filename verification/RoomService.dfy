/** rooms.Service as written: Create, Reconcile, Join and Disable as sequences of calls on
    a store and a NetBird client that may refuse or lose any of them, while everybody else
    uses the same two (room-api/internal/rooms/service.go). Each is proved to make exactly
    the steps of the machine in Provisioning, so that the theorems are about this code. */
module RoomService {
  import opened Outcomes
  import opened RoomTables
  import opened NetBirdState
  import opened Provisioning
  import opened RoomStore
  import opened CallTraces

  class Service {
    const store: Store
    const nb: NetBird

    constructor (store: Store, nb: NetBird)
      ensures this.store == store && this.nb == nb
    {
      this.store, this.nb := store, nb;
    }

    function Db(): Provisioning.Db
      reads this, store, nb
    {
      Provisioning.Db(store.State(), nb.State())
    }

    /** Before each of its calls the others move; then the call gets its answer. */
    method Meanwhile(t: Turns) returns (reply: Reply)
      requires t.At(Db()) && InFlight(t.now.pc)
      modifies store, nb
      ensures t.Finds(Db()) && reply == t.moves(t.n).reply
    {
      var move := t.moves(t.n);
      Become(move.others(Db()));
      reply := move.reply;
    }

    method Become(next: Provisioning.Db)
      modifies store, nb
      ensures Db() == next
    {
      store.rooms, store.operations := next.tables.rooms, next.tables.ops;
      nb.groups, nb.keys, nb.policies := next.remote.groups, next.remote.keys, next.remote.policies;
    }

    // ---------------------------------------------------------------- Create

    /** fail(): mark the room and the record in error, whatever becomes of it. */
    method Fail(roomId: RoomId, key: IdemKey, t: Turns) returns (result: Result)
      requires t.At(Db()) && t.x == roomId && t.now.pc == FailRoom && t.now.key == key
      modifies store, nb, t
      ensures t.At(Db()) && t.now.pc == Finished(result) && result == Failed(Unwound)
    {
      hide StepCall, Amid;
      FailTheRoom(roomId, t);
      if key != NO_KEY { FailTheRecord(key, t); }
      result := Failed(Unwound);
    }

    /** service.go:245. */
    method FailTheRoom(roomId: RoomId, t: Turns)
      requires t.At(Db()) && t.x == roomId && t.now.pc == FailRoom
      modifies store, nb, t
      ensures t.At(Db()) && t.now == old(t.now).(pc := if old(t.now).key == NO_KEY then Out(Unwound) else FailOp)
    {
      hide StepGate, StepMake, StepRecord, StepClose, StepUndo, AtFailOp, Amid;
      var reply := Meanwhile(t);
      ghost var db := Db();
      var _ := store.SetStatus(roomId, Error, reply.fate);
      t.Took(db, Db());
    }

    /** service.go:247. */
    method FailTheRecord(key: IdemKey, t: Turns)
      requires t.At(Db()) && t.now.pc == FailOp && t.now.key == key
      modifies store, nb, t
      ensures t.At(Db()) && t.now.pc == Out(Unwound)
    {
      hide StepGate, StepMake, StepRecord, StepClose, StepUndo, AtFailRoom, Amid;
      var reply := Meanwhile(t);
      ghost var db := Db();
      var _ := store.SaveOperation(key, Blank, Error, reply.fate);
      t.Took(db, Db());
    }

    /** The idempotency gate, service.go:72-118. Answers with the result if there is one. */
    method PassGate(key: IdemKey, roomId: RoomId, t: Turns) returns (answer: Option<Result>)
      requires t.At(Db()) && t.x == roomId && t.now == NewCall(key, t.now.code)
      modifies store, nb, t
      ensures t.At(Db()) && if answer.Some? then t.now.pc == Finished(answer.value) else t.now.pc == InsertRoom
      ensures t.now == old(t.now).(pc := t.now.pc, retry := t.now.retry, gated := t.now.gated)
    {
      hide StepMake, StepRecord, StepClose, StepUndo, StepFail, Amid, AtInsertRoom;
      answer := None;
      if key == NO_KEY { return; }
      var reply := Meanwhile(t);
      var op, err := store.GetOperation(key, reply.fate);
      t.Took(Db(), Db());
      if err { return Some(Failed(Early)); }
      var retryOperation := false;
      if op.Some? {
        if op.value.status == Creating { return Some(InProgress); }
        if op.value.status == Error {
          retryOperation := true;
        } else {
          match Open(op.value.response) {
            case None => return Some(Failed(Early));
            case Some(response) => return Some(Success(response));
          }
        }
      }
      ghost var db;
      if retryOperation {
        reply := Meanwhile(t);
        db := Db();
        var err := store.ResetOperation(key, roomId, reply.fate);
        t.Took(db, Db());
        if err { return Some(Failed(Early)); }
      }
      reply := Meanwhile(t);
      db := Db();
      var created, err' := store.BeginOperation(key, roomId, reply.fate);
      t.Took(db, Db());
      if err' { return Some(Failed(Early)); }
      if !created && !retryOperation { return Some(InProgress); }
    }

    /** findGroup, service.go:191-202. */
    method FindOwnGroup(name: RoomId, fate: Fate) returns (group: Option<nat>, err: bool)
      ensures err == !fate.Done?
      ensures group == if err then None else FindGroup(nb.groups, name)
    {
      var listing, err' := nb.ListGroups(fate);
      group, err := None, err';
      if err { return; }
      var i := 0;
      while i < |listing|
        invariant 0 <= i <= |listing|
        invariant FindGroup(listing, name) == FindGroup(listing, name, i)
      {
        if listing[i].live && listing[i].name == name { return Some(i), false; }
        i := i + 1;
      }
    }

    /** The compensation repeated at service.go:146-150, 153-157 and 161-165: revoke the
        key, delete the group if this call created it, and fail. After a lost policy
        record (`sweep`, service.go:169-171) the group goes in any case. */
    method Unwind(roomId: RoomId, key: IdemKey, keyId: Option<nat>, group: Option<nat>, deleteGroup: bool,
                  t: Turns)
      returns (result: Result)
      requires t.At(Db()) && t.x == roomId && t.now.pc == RevokeKey && t.now.key == key
      requires t.now.keyId == keyId && t.now.group == group && deleteGroup == (t.now.made || t.now.sweep)
      modifies store, nb, t
      ensures t.At(Db()) && t.now.pc == Finished(result) && result == Failed(Unwound)
    {
      hide StepCall, Amid;
      RevokeOwnKey(keyId, t);
      if deleteGroup { DropOwnGroup(group, t); }
      result := Fail(roomId, key, t);
    }

    method RevokeOwnKey(keyId: Option<nat>, t: Turns)
      requires t.At(Db()) && t.now.pc == RevokeKey && t.now.keyId == keyId
      modifies store, nb, t
      ensures t.At(Db())
      ensures t.now ==
                old(t.now).(pc := if old(t.now).made || old(t.now).sweep then DropGroup else FailRoom,
                        tidy := t.now.tidy)
    {
      hide StepGate, StepMake, StepRecord, StepClose, StepFail, Amid, AtDropPolicy, AtDropGroup;
      var reply := Meanwhile(t);
      ghost var db := Db();
      var _ := nb.RevokeSetupKey(keyId, reply.fate);
      t.Took(db, Db());
    }

    /** Find or create the group, service.go:127-136. */
    method TakeGroup(roomId: RoomId, key: IdemKey, t: Turns)
      returns (answer: Option<Result>, group: Option<nat>, createdGroup: bool)
      requires t.At(Db()) && t.x == roomId && t.now.pc == FindTheGroup && t.now.key == key && !t.now.made
      modifies store, nb, t
      ensures t.At(Db())
      ensures if answer.Some? then t.now.pc == Finished(answer.value)
              else t.now == old(t.now).(pc := MakeKey, group := group, made := createdGroup, sure := t.now.sure)
    {
      hide StepCall, Amid;
      answer, createdGroup := None, false;
      var err;
      group, err := LookForGroup(roomId, t);
      if !err && group.None? {
        group, err := MakeOwnGroup(roomId, t);
        createdGroup := !err;
      }
      if err {
        var result := Fail(roomId, key, t);
        answer := Some(result);
      }
    }

    /** service.go:128. */
    method LookForGroup(roomId: RoomId, t: Turns) returns (group: Option<nat>, err: bool)
      requires t.At(Db()) && t.x == roomId && t.now.pc == FindTheGroup
      modifies store, nb, t
      ensures t.At(Db()) && (err ==> group.None?)
      ensures t.now == old(t.now).(pc := if err then FailRoom else if group.Some? then MakeKey else MakeGroup,
                                   group := group)
    {
      hide StepGate, StepRecord, StepClose, StepUndo, StepFail, Amid, AtMakeGroup, AtMakeKey, AtMakePolicy;
      var reply := Meanwhile(t);
      group, err := FindOwnGroup(roomId, reply.fate);
      t.Took(Db(), Db());
    }

    /** service.go:131-132. */
    method MakeOwnGroup(roomId: RoomId, t: Turns) returns (group: Option<nat>, err: bool)
      requires t.At(Db()) && t.x == roomId && t.now.pc == MakeGroup
      modifies store, nb, t
      ensures t.At(Db())
      ensures t.now == old(t.now).(pc := if err then FailRoom else MakeKey, group := group, made := !err,
                                   sure := t.now.sure)
    {
      hide StepGate, StepRecord, StepClose, StepUndo, StepFail, Amid, AtFindTheGroup, AtMakeKey,
        AtMakePolicy;
      var reply := Meanwhile(t);
      ghost var db := Db();
      var id, failed := nb.CreateGroup(roomId, reply.fate);
      t.Took(db, Db());
      group, err := if failed then None else Some(id), failed;
    }

    /** From the group to the recorded policy, service.go:127-172. */
    method Provision(roomId: RoomId, key: IdemKey, t: Turns) returns (answer: Option<Result>, secret: Secret)
      requires t.At(Db()) && t.x == roomId && t.now.pc == FindTheGroup && t.now.key == key
      requires !t.now.made && !t.now.sweep
      modifies store, nb, t
      ensures t.At(Db())
      ensures if answer.Some? then t.now.pc == Finished(answer.value)
              else t.now.pc == Activate && t.now.secret == secret && t.now.key == key && t.now.code == old(t.now.code)
    {
      hide StepGate, StepRecord, StepClose, StepUndo, StepFail, Amid;
      var group, createdGroup;
      answer, group, createdGroup := TakeGroup(roomId, key, t);
      if answer.Some? { return answer, 0; }
      var reply := Meanwhile(t);
      ghost var db := Db();
      var keyId, clear, err := nb.CreateSetupKey(roomId, reply.secret, reply.fate);
      t.Took(db, Db());
      secret := clear;
      if err {
        if createdGroup { DropOwnGroup(group, t); }
        var result := Fail(roomId, key, t);
        return Some(result), secret;
      }
      answer := Record(roomId, key, group, Some(keyId), secret, createdGroup, t);
    }

    /** service.go:140. */
    method DropOwnGroup(group: Option<nat>, t: Turns)
      requires t.At(Db()) && t.now.pc == DropGroup && t.now.group == group
      modifies store, nb, t
      ensures t.At(Db()) && t.now == old(t.now).(pc := FailRoom, tidy := t.now.tidy)
    {
      hide StepGate, StepMake, StepRecord, StepClose, StepFail, Amid;
      var reply := Meanwhile(t);
      ghost var db := Db();
      var _ := nb.DeleteGroup(group, reply.fate);
      t.Took(db, Db());
    }

    /** The key is recorded and the policy created, service.go:152-166. */
    method Record(roomId: RoomId, key: IdemKey, group: Option<nat>, keyId: Option<nat>, secret: Secret,
                  createdGroup: bool, t: Turns)
      returns (answer: Option<Result>)
      requires t.At(Db()) && t.x == roomId && t.now.pc == RecordKey && t.now.key == key
      requires t.now.group == group && t.now.keyId == keyId && t.now.secret == secret && t.now.made == createdGroup
      requires !t.now.sweep
      modifies store, nb, t
      ensures t.At(Db())
      ensures if answer.Some? then t.now.pc == Finished(answer.value)
              else t.now.pc == Activate && t.now.secret == secret && t.now.key == key && t.now.code == old(t.now.code)
    {
      hide StepCall, Amid;
      var result: Result;
      var err := RecordOwnKey(roomId, group, keyId, secret, t);
      if err {
        result := Unwind(roomId, key, keyId, group, createdGroup, t);
        return Some(result);
      }
      var policy, err' := MakeOwnPolicy(roomId, t);
      if err' {
        result := Unwind(roomId, key, keyId, group, createdGroup, t);
        return Some(result);
      }
      answer := RecordIt(roomId, key, group, keyId, policy, secret, t);
    }

    /** service.go:152. */
    method RecordOwnKey(roomId: RoomId, group: Option<nat>, keyId: Option<nat>, secret: Secret, t: Turns)
      returns (err: bool)
      requires t.At(Db()) && t.x == roomId && t.now.pc == RecordKey
      requires t.now.group == group && t.now.keyId == keyId && t.now.secret == secret
      modifies store, nb, t
      ensures t.At(Db()) && t.now == old(t.now).(pc := if err then RevokeKey else MakePolicy)
    {
      hide StepGate, StepClose, StepUndo, StepFail, StepMake, Amid, AtRecordPolicy;
      var reply := Meanwhile(t);
      ghost var db := Db();
      err := store.UpdateExternalIDs(roomId, group, keyId, None, Sealed(secret), reply.fate);
      t.Took(db, Db());
    }

    /** service.go:159. */
    method MakeOwnPolicy(roomId: RoomId, t: Turns) returns (policy: Option<nat>, err: bool)
      requires t.At(Db()) && t.x == roomId && t.now.pc == MakePolicy
      modifies store, nb, t
      ensures t.At(Db())
      ensures t.now == old(t.now).(pc := if err then RevokeKey else RecordPolicy, policy := policy, sure := t.now.sure)
    {
      hide StepGate, StepRecord, StepClose, StepUndo, StepFail, Amid, AtFindTheGroup, AtMakeKey, AtMakeGroup;
      var reply := Meanwhile(t);
      ghost var db := Db();
      var id, failed := nb.CreateRoomPolicy(roomId, reply.fate);
      t.Took(db, Db());
      policy, err := if failed then None else Some(id), failed;
    }

    /** The policy is recorded, service.go:167-172. */
    method RecordIt(roomId: RoomId, key: IdemKey, group: Option<nat>, keyId: Option<nat>, policy: Option<nat>,
                    secret: Secret, t: Turns)
      returns (answer: Option<Result>)
      requires t.At(Db()) && t.x == roomId && t.now.pc == RecordPolicy && t.now.key == key
      requires t.now.group == group && t.now.keyId == keyId && t.now.secret == secret && t.now.policy == policy
      modifies store, nb, t
      ensures t.At(Db())
      ensures if answer.Some? then t.now.pc == Finished(answer.value)
              else t.now.pc == Activate && t.now.secret == secret && t.now.key == key && t.now.code == old(t.now.code)
    {
      hide StepCall, Amid;
      answer := None;
      var err := RecordAll(roomId, group, keyId, policy, secret, t);
      if err {
        DropOwnPolicy(policy, t);
        var result := Unwind(roomId, key, keyId, group, true, t);
        answer := Some(result);
      }
    }

    /** service.go:167. */
    method RecordAll(roomId: RoomId, group: Option<nat>, keyId: Option<nat>, policy: Option<nat>, secret: Secret,
                     t: Turns)
      returns (err: bool)
      requires t.At(Db()) && t.x == roomId && t.now.pc == RecordPolicy
      requires t.now.group == group && t.now.keyId == keyId && t.now.secret == secret && t.now.policy == policy
      modifies store, nb, t
      ensures t.At(Db()) && t.now == old(t.now).(pc := if err then DropPolicy else Activate, sweep := err)
    {
      hide StepGate, StepClose, StepUndo, StepFail, StepMake, Amid, AtRecordKey;
      var reply := Meanwhile(t);
      ghost var db := Db();
      err := store.UpdateExternalIDs(roomId, group, keyId, policy, Sealed(secret), reply.fate);
      t.Took(db, Db());
    }

    /** service.go:168. */
    method DropOwnPolicy(policy: Option<nat>, t: Turns)
      requires t.At(Db()) && t.now.pc == DropPolicy && t.now.policy == policy
      modifies store, nb, t
      ensures t.At(Db()) && t.now == old(t.now).(pc := RevokeKey, tidy := t.now.tidy)
    {
      hide StepGate, StepMake, StepRecord, StepClose, StepFail, Amid;
      var reply := Meanwhile(t);
      ghost var db := Db();
      var _ := nb.DeletePolicy(policy, reply.fate);
      t.Took(db, Db());
    }

    /** The room becomes active and the response is saved, service.go:173-188. */
    method Finish(key: IdemKey, roomId: RoomId, code: Code, secret: Secret, t: Turns) returns (result: Result)
      requires t.At(Db()) && t.x == roomId && t.now.pc == Activate
      requires t.now.key == key && t.now.code == code && t.now.secret == secret
      modifies store, nb, t
      ensures t.At(Db()) && t.now.pc == Finished(result)
    {
      hide StepGate, StepMake, StepRecord, StepUndo, StepFail, Amid;
      var reply := Meanwhile(t);
      ghost var db := Db();
      var err := store.SetStatus(roomId, Active, reply.fate);
      t.Took(db, Db());
      if err { return Failed(Tail); }
      var response := Response(roomId, Some(code), MANAGEMENT_URL, secret);
      if key != NO_KEY {
        reply := Meanwhile(t);
        db := Db();
        err := store.SaveOperation(key, Sealed(response), Active, reply.fate);
        t.Took(db, Db());
        if err { return Failed(Tail); }
      }
      return Success(response);
    }

    /** Create, service.go:71-189. Given what the others do before each of its calls and how
        each is answered, the database it leaves and the result it returns are the machine's
        for this caller: every call is made, in this order, and no other. */
    method Create(key: IdemKey, roomId: RoomId, code: Code, moves: nat -> Move) returns (result: Result, n: nat)
      modifies store, nb
      ensures Amid(old(Db()), roomId, NewCall(key, code), moves, n).db == Db()
      ensures Amid(old(Db()), roomId, NewCall(key, code), moves, n).call.pc == Finished(result)
    {
      hide StepMake, StepRecord, StepUndo, StepFail, StepClose, Amid;
      var t := new Turns(moves, Db(), roomId, NewCall(key, code));
      var answer := PassGate(key, roomId, t);
      if answer.Some? { return answer.value, t.n; }
      var reply := Meanwhile(t);
      ghost var db := Db();
      var err := store.CreateRoom(roomId, Digest(code), reply.fate);
      t.Took(db, Db());
      if err { return Failed(Early), t.n; }
      var secret;
      answer, secret := Provision(roomId, key, t);
      if answer.Some? { return answer.value, t.n; }
      result := Finish(key, roomId, code, secret, t);
      n := t.n;
    }

    // ---------------------------------------------------------------- Reconcile

    /** The deletes for one row, service.go:223-232: whatever becomes of them, the row is
        marked next. */
    method RemoveRecorded(room: Room, t: BootTurns)
      requires t.At(Db()) && Working(t.now) && t.now.at == NextFor(room, BootPolicy) && t.now.row == Some(room)
      modifies nb, t
      ensures t.At(Db()) && t.now == old(t.now).(at := MarkRoom)
    {
      hide AmidBoot;
      ghost var db := Db();
      if room.policyId.Some? {
        var _ := nb.DeletePolicy(room.policyId, t.fates(t.n));
        t.Took(db, Db());
      }
      RemoveKey(room, t);
      if room.groupId.Some? {
        db := Db();
        var _ := nb.DeleteGroup(room.groupId, t.fates(t.n));
        t.Took(db, Db());
      }
    }

    method RemoveKey(room: Room, t: BootTurns)
      requires t.At(Db()) && Working(t.now) && t.now.at == NextFor(room, BootRevoke) && t.now.row == Some(room)
      modifies nb, t
      ensures t.At(Db()) && t.now == old(t.now).(at := NextFor(room, BootGroup))
    {
      hide AmidBoot;
      if room.setupKeyId.Some? {
        ghost var db := Db();
        var _ := nb.RevokeSetupKey(room.setupKeyId, t.fates(t.n));
        t.Took(db, Db());
        db := Db();
        var _ := nb.DeleteSetupKey(room.setupKeyId, t.fates(t.n));
        t.Took(db, Db());
      }
    }

    /** One round of the loop, service.go:213-239. */
    method RepairOne(p: Pending, t: BootTurns) returns (err: bool)
      requires t.At(Db()) && Working(t.now) && t.now.todo[0] == p && t.now.at == Fetch
      modifies store, nb, t
      ensures t.At(Db()) && t.now == if err then Ended(false) else Rest(old(t.now).todo[1..])
    {
      hide AmidBoot;
      var row, err' := store.GetRoom(p.roomId, t.fates(t.n));
      t.Took(Db(), Db());
      err := err';
      if err { return; }
      ghost var db;
      if row.Some? {
        RemoveRecorded(row.value, t);
        db := Db();
        err := store.SetStatus(p.roomId, Error, t.fates(t.n));
        t.Took(db, Db());
        if err { return; }
      }
      db := Db();
      err := store.SaveOperation(p.key, Blank, Error, t.fates(t.n));
      t.Took(db, Db());
    }

    /** Reconcile, service.go:207-242: given how its calls are answered, it is the machine's
        repair of the listing, and stops at the first lookup or statement that fails. */
    method Reconcile(listing: Fate, fates: nat -> Fate) returns (err: bool, n: nat, todo: seq<Pending>)
      modifies store, nb
      ensures IsListing(old(store.operations), todo)
      ensures !listing.Done? ==> err && Db() == old(Db())
      ensures listing.Done? ==> AmidBoot(old(Db()), Rest(todo), fates, n) == BootStep(Db(), Ended(!err))
    {
      todo, err := store.ListCreating(listing);
      n := 0;
      if err { return; }
      var t := new BootTurns(fates, Db(), Rest(todo));
      hide AmidBoot;
      for i := 0 to |todo|
        invariant t.At(Db()) && t.now == Rest(todo[i..]) && !err
        invariant t.from == old(Db()) && t.start == Rest(todo) && t.fates == fates && fresh(t)
      {
        assert todo[i..][0] == todo[i] && todo[i..][1..] == todo[i + 1..];
        err := RepairOne(todo[i], t);
        if err { return err, t.n, todo; }
      }
      n := t.n;
    }

    // ---------------------------------------------------------------- Join and Disable

    /** Join, service.go:253-264: a failed lookup, an unknown code, a room that is not
        active and a key that does not open are all refusals. */
    method Join(code: Code, fate: Fate) returns (response: Option<Response>, ghost hit: Option<RoomId>)
      ensures Answers(store.State(), code, hit)
      ensures response == if fate.Done? && hit.Some? then JoinRow(hit.value, store.rooms[hit.value]) else None
    {
      var found, err := store.GetRoomByCodeHash(Digest(code), fate);
      hit, response := found, None;
      if err || found.None? || !store.rooms[found.value].status.Active? { return; }
      match Open(store.rooms[found.value].setupKey)
      case None => return;
      case Some(key) => return Some(Response(found.value, None, MANAGEMENT_URL, key)), hit;
    }

    /** Disable, service.go:291-312, likewise: the row it finds is one with that code, or there
        is none, in the database its first call meets. */
    method Disable(code: Code, moves: nat -> Move) returns (ok: bool, n: nat, ghost hit: Option<RoomId>)
      modifies store, nb
      ensures Answers(moves(0).others(old(Db())).tables, code, hit)
      ensures var m := AmidDisable(old(Db()), Disabling(code, Find, 0, None, None), moves, hit, n);
        m.db == Db() && m.d.at == Closed(ok)
    {
      ghost var start := Disabling(code, Find, 0, None, None);
      var t := new DisableTurns(moves, Db(), start);
      var fate := MeanwhileDisable(t);
      assert Db() == moves(0).others(old(Db()));
      hide AmidDisable;
      var found, err := store.GetRoomByCodeHash(Digest(code), fate);
      hit := found;
      t.Took(Db(), Db(), found);
      if err || found.None? { return false, t.n, hit; }
      var room := store.rooms[found.value];
      if room.status.Disabled? { return true, t.n, hit; }
      ok := CloseRoom(found.value, room, t);
      n := t.n;
    }

    method MeanwhileDisable(t: DisableTurns) returns (fate: Fate)
      requires t.At(Db()) && !t.now.at.Closed?
      modifies store, nb
      ensures t.Finds(Db()) && fate == t.moves(t.n).reply.fate
    {
      var move := t.moves(t.n);
      Become(move.others(Db()));
      fate := move.reply.fate;
    }

    /** The revocation, the policy and the status, service.go:299-311. */
    method CloseRoom(x: RoomId, room: Room, t: DisableTurns) returns (ok: bool)
      requires t.At(Db()) && t.n > 0 && t.now.at == Revoke && t.now.room == x
      requires t.now.keyId == room.setupKeyId && t.now.policyId == room.policyId
      modifies store, nb, t
      ensures t.At(Db()) && t.now.at == Closed(ok) && t.hit == old(t.hit)
    {
      hide AmidDisable;
      var fate := MeanwhileDisable(t);
      ghost var db := Db();
      var err := nb.RevokeSetupKey(room.setupKeyId, fate);
      t.Took(db, Db(), t.hit);
      if err { return false; }
      if room.policyId.Some? {
        fate := MeanwhileDisable(t);
        db := Db();
        err := nb.DeletePolicy(room.policyId, fate);
        t.Took(db, Db(), t.hit);
        if err { return false; }
      }
      fate := MeanwhileDisable(t);
      db := Db();
      err := store.SetStatus(x, Disabled, fate);
      t.Took(db, Db(), t.hit);
      return !err;
    }
  }
}
