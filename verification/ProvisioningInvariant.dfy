/** What every step of the provisioning saga keeps. The theorems about whole runs are in
    ProvisioningSafety. */
module ProvisioningInvariant {
  import opened Outcomes
  import opened RoomTables
  import opened NetBirdState
  import opened Provisioning

  // ---------------------------------------------------------------- where a call stands

  predicate BeforeRow(pc: Pc) { pc.Lookup? || pc.Reset? || pc.Insert? || pc.InsertRoom? }

  predicate Unwinding(pc: Pc) { pc.DropPolicy? || pc.RevokeKey? || pc.DropGroup? || pc.FailRoom? || pc.FailOp? }

  /** Every identifier the call has asked for so far. */
  predicate HoldsFor(c: Call) {
    && (c.pc.MakeKey? || c.pc.RecordKey? || c.pc.MakePolicy? ==> c.group.Some?)
    && (c.pc.RecordKey? || c.pc.MakePolicy? ==> c.keyId.Some?)
    && (c.pc.RecordPolicy? ==> Complete(c))
    && (c.pc.Lookup? || c.pc.Reset? || c.pc.Insert? ==> c.key != NO_KEY)
  }

  predicate Complete(c: Call) { c.group.Some? && c.keyId.Some? && c.policy.Some? }

  // ---------------------------------------------------------------- whose is what

  predicate OwnsIds(rm: Remote, x: RoomId, group: Option<nat>, key: Option<nat>, policy: Option<nat>) {
    && (group.Some? ==> rm.HasGroup(group) && rm.groups[group.value].name == x)
    && (key.Some? ==> rm.HasKey(key) && rm.keys[key.value].room == x)
    && (policy.Some? ==> rm.HasPolicy(policy) && rm.policies[policy.value].room == x)
  }

  predicate RowFull(row: Room, c: Call) {
    row.groupId == c.group && row.setupKeyId == c.keyId && row.setupKey == Sealed(c.secret) && row.policyId == c.policy
  }

  /** What the call made is still there; only a Disable of that room may have
      revoked the key or deleted the policy. */
  predicate Alive(rm: Remote, targets: set<RoomId>, x: RoomId, c: Call) {
    && (rm.HasGroup(c.group) ==> rm.groups[c.group.value].live)
    && (rm.HasKey(c.keyId) ==> rm.keys[c.keyId.value].state.Valid? || x in targets)
    && (rm.HasPolicy(c.policy) ==> rm.policies[c.policy.value].live || x in targets)
  }

  /** The room is as complete as the day its code was given out, unless disabled. */
  predicate Standing(db: Db, targets: set<RoomId>, x: RoomId, c: Call) {
    && Complete(c) && OwnsIds(db.remote, x, c.group, c.keyId, c.policy) && Alive(db.remote, targets, x, c)
    && x in db.tables.rooms && RowFull(db.tables.rooms[x], c)
    && (db.tables.rooms[x].status.Active? || (db.tables.rooms[x].status.Disabled? && x in targets))
  }

  // ---------------------------------------------------------------- the invariant

  /** The call and the row of its room are equally far. */
  predicate PlaceOk(tables: Tables, x: RoomId, c: Call) {
    && HoldsFor(c)
    && (BeforeRow(c.pc) ==> x !in tables.rooms)
    && (InFlight(c.pc) ==> !c.saved && (BeforeRow(c.pc) || x in tables.rooms))
  }

  // Nothing the call has made has been taken back, unless by a Disable.
  predicate Works(c: Call) { c.saved || (InFlight(c.pc) && !Unwinding(c.pc)) }

  predicate IdsOk(rm: Remote, targets: set<RoomId>, x: RoomId, c: Call) {
    && OwnsIds(rm, x, c.group, c.keyId, c.policy)
    && (c.keyId.Some? ==> rm.keys[c.keyId.value].secret == c.secret)
    && (Works(c) ==> Alive(rm, targets, x, c))
  }

  predicate CallOk(db: Db, targets: set<RoomId>, x: RoomId, c: Call) {
    PlaceOk(db.tables, x, c) && IdsOk(db.remote, targets, x, c)
  }

  predicate RowOk(db: Db, targets: set<RoomId>, x: RoomId, c: Call) {
    && (c.saved || c.pc.Activate? || c.pc.SaveResponse? ==>
          Complete(c) && x in db.tables.rooms && RowFull(db.tables.rooms[x], c))
    && (c.saved || c.pc.SaveResponse? ==>
          db.tables.rooms[x].status.Active? || (db.tables.rooms[x].status.Disabled? && x in targets))
    && (x in db.tables.rooms ==>
          var row := db.tables.rooms[x];
          && row.codeHash == Digest(c.code)
          && (row.groupId.None? || row.groupId == c.group)
          && (row.setupKeyId.None? || row.setupKeyId == c.keyId)
          && (row.policyId.None? || row.policyId == c.policy)
          && (c.pc.FindTheGroup? || c.pc.MakeGroup? || c.pc.MakeKey? ==> row.groupId.None? && row.setupKeyId.None?)
          && (c.pc.FindTheGroup? || c.pc.MakeGroup? || c.pc.MakeKey? || c.pc.MakePolicy? ==> row.policyId.None?)
          && (row.status.Active? ==> RowFull(row, c) && Complete(c) && (c.pc.SaveResponse? || !InFlight(c.pc))))
  }

  /** The response is the one of a call with this key whose final save took effect. */
  predicate Issued(calls: seq<Call>, key: IdemKey, response: Response) {
    && response.roomId < |calls|
    && calls[response.roomId].saved && calls[response.roomId].key == key
    && response == Own(response.roomId, calls[response.roomId])
  }

  predicate Returned(calls: seq<Call>, x: RoomId, response: Response) {
    x < |calls| && calls[x].pc == Finished(Success(response))
  }

  predicate ResultOk(calls: seq<Call>, x: RoomId)
    requires x < |calls|
  {
    calls[x].pc.Finished? && calls[x].pc.result.Success? ==>
      && Issued(calls, calls[x].key, calls[x].pc.result.response)
      && (calls[x].key == NO_KEY ==> calls[x].pc.result.response.roomId == x)
  }

  /** A record still creating points at a room whose own final save has not happened. */
  predicate OpOk(calls: seq<Call>, key: IdemKey, op: Operation) {
    && key != NO_KEY && !op.status.Disabled?
    && op.roomId < |calls| && calls[op.roomId].key == key
    && (op.status.Creating? ==> !calls[op.roomId].saved)
    && (op.status.Active? ==> op.response.Sealed? && Issued(calls, key, op.response.clear))
  }

  predicate DisableOk(db: Db, targets: set<RoomId>, d: Disabling) {
    d.at.Revoke? || d.at.Drop? || d.at.Mark? ==>
      && d.room in db.tables.rooms && d.room in targets
      && OwnsIds(db.remote, d.room, None, d.keyId, d.policyId)
  }

  predicate Touching(at: BootPc) { !at.Fetch? && !at.MarkOp? }

  predicate BootOk(db: Db, b: Boot) {
    && Working(b)
    && (forall i :: 0 <= i < |b.todo| ==>
          && b.todo[i].key in db.tables.ops && db.tables.ops[b.todo[i].key].status.Creating?
          && db.tables.ops[b.todo[i].key].roomId == b.todo[i].roomId)
    && (forall i, j :: 0 <= i < j < |b.todo| ==> b.todo[i].key != b.todo[j].key)
    && (Touching(b.at) ==>
          && b.row.Some? && b.todo[0].roomId in db.tables.rooms
          && OwnsIds(db.remote, b.todo[0].roomId, b.row.value.groupId, b.row.value.setupKeyId, b.row.value.policyId))
  }

  ghost predicate CallsOk(db: Db, targets: set<RoomId>, calls: seq<Call>) {
    forall x :: 0 <= x < |calls| ==> CallOk(db, targets, x, calls[x]) && RowOk(db, targets, x, calls[x])
  }

  ghost predicate RowsBelong(db: Db, calls: seq<Call>) {
    db.tables.UniqueCodes() && forall x :: x in db.tables.rooms ==> x < |calls|
  }

  ghost predicate ResultsOk(calls: seq<Call>) {
    forall x :: 0 <= x < |calls| ==> ResultOk(calls, x)
  }

  ghost predicate OpsOk(calls: seq<Call>, ops: map<IdemKey, Operation>) {
    forall k :: k in ops ==> OpOk(calls, k, ops[k])
  }

  ghost predicate DisablesOk(db: Db, targets: set<RoomId>, disables: seq<Disabling>) {
    forall i :: 0 <= i < |disables| ==> DisableOk(db, targets, disables[i])
  }

  ghost predicate PhaseOk(s: World) {
    && (!s.phase.Serving? ==>
          && (forall x :: 0 <= x < |s.calls| ==> !InFlight(s.calls[x].pc))
          && (forall i :: 0 <= i < |s.disables| ==> s.disables[i].at.Closed?))
    && (s.phase.Repairing? ==> BootOk(s.db, s.phase.boot))
  }

  ghost predicate Inv(s: World) {
    && CallsOk(s.db, s.targets, s.calls) && RowsBelong(s.db, s.calls) && ResultsOk(s.calls)
    && OpsOk(s.calls, s.db.tables.ops) && DisablesOk(s.db, s.targets, s.disables) && PhaseOk(s)
  }

  // ---------------------------------------------------------------- one step touches one room

  /** b differs from a only in the row and in the remote resources of room x; rows keep
      their code hash and remote identifiers keep their owner. */
  predicate Confined(a: Db, b: Db, x: RoomId) {
    RowsConfined(a.tables, b.tables, x) && RemoteConfined(a.remote, b.remote, x)
  }

  predicate RowsConfined(a: Tables, b: Tables, x: RoomId) {
    && (forall y :: y in a.rooms ==> y in b.rooms && b.rooms[y].codeHash == a.rooms[y].codeHash)
    && (forall y :: y in a.rooms && y != x ==> b.rooms[y] == a.rooms[y])
    && (forall y :: y in b.rooms && y != x ==> y in a.rooms)
    && (x in b.rooms && x !in a.rooms ==> !a.Clashes(x, b.rooms[x].codeHash))
  }

  predicate RemoteConfined(a: Remote, b: Remote, x: RoomId) {
    && |a.groups| <= |b.groups| && |a.keys| <= |b.keys| && |a.policies| <= |b.policies|
    && (forall g :: |a.groups| <= g < |b.groups| ==> b.groups[g].name == x)
    && (forall n :: |a.keys| <= n < |b.keys| ==> b.keys[n].room == x)
    && (forall p :: |a.policies| <= p < |b.policies| ==> b.policies[p].room == x)
    && (forall g :: 0 <= g < |a.groups| ==>
          b.groups[g].name == a.groups[g].name && (a.groups[g].name != x ==> b.groups[g] == a.groups[g]))
    && (forall n :: 0 <= n < |a.keys| ==>
          && b.keys[n].room == a.keys[n].room && b.keys[n].secret == a.keys[n].secret
          && (a.keys[n].room != x ==> b.keys[n] == a.keys[n]))
    && (forall p :: 0 <= p < |a.policies| ==>
          b.policies[p].room == a.policies[p].room && (a.policies[p].room != x ==> b.policies[p] == a.policies[p]))
  }

  predicate Kept(targets: set<RoomId>, x: RoomId, after: CallStep) {
    CallOk(after.db, targets, x, after.call) && RowOk(after.db, targets, x, after.call)
  }

  /** Statements leave identifiers alone. */
  lemma IdsStay(rm: Remote, targets: set<RoomId>, x: RoomId, c: Call, d: Call)
    requires IdsOk(rm, targets, x, c) && (Works(d) ==> Works(c))
    requires d.group == c.group && d.keyId == c.keyId && d.secret == c.secret && d.policy == c.policy
    ensures IdsOk(rm, targets, x, d)
  {
  }

  lemma LookupKeeps(db: Db, targets: set<RoomId>, x: RoomId, c: Call, r: Reply)
    requires c.pc.Lookup?
    requires CallOk(db, targets, x, c) && RowOk(db, targets, x, c)
    ensures Kept(targets, x, AtLookup(db, c, r))
  {
    hide IdsOk;
    IdsStay(db.remote, targets, x, c, AtLookup(db, c, r).call);
    hide Tables.CreateRoom, Tables.Clashes, Tables.BeginOperation, Tables.ResetOperation;
    if r.fate.Done? && c.key in db.tables.ops {
      match db.tables.ops[c.key].status { case Creating => case Error => case _ => }
    }
  }

  lemma ResetKeeps(db: Db, targets: set<RoomId>, x: RoomId, c: Call, r: Reply)
    requires c.pc.Reset?
    requires CallOk(db, targets, x, c) && RowOk(db, targets, x, c)
    ensures Kept(targets, x, AtReset(db, x, c, r))
  {
    hide IdsOk;
    IdsStay(db.remote, targets, x, c, AtReset(db, x, c, r).call);
    hide Tables.CreateRoom, Tables.Clashes;
    match r.fate { case Done => case Refused => case Lost => }
  }

  lemma InsertKeeps(db: Db, targets: set<RoomId>, x: RoomId, c: Call, r: Reply)
    requires c.pc.Insert?
    requires CallOk(db, targets, x, c) && RowOk(db, targets, x, c)
    ensures Kept(targets, x, AtInsert(db, x, c, r))
  {
    hide IdsOk;
    IdsStay(db.remote, targets, x, c, AtInsert(db, x, c, r).call);
    hide Tables.CreateRoom, Tables.Clashes;
    match r.fate { case Done => case Refused => case Lost => }
  }

  lemma InsertRoomKeeps(db: Db, targets: set<RoomId>, x: RoomId, c: Call, r: Reply)
    requires c.pc.InsertRoom?
    requires CallOk(db, targets, x, c) && RowOk(db, targets, x, c)
    ensures Kept(targets, x, AtInsertRoom(db, x, c, r))
  {
    hide IdsOk;
    IdsStay(db.remote, targets, x, c, AtInsertRoom(db, x, c, r).call);
    hide Tables.BeginOperation, Tables.ResetOperation;
    if r.fate.Applied() && !db.tables.Clashes(x, Digest(c.code)) { if r.fate.Done? {} else {} } else {}
  }

  lemma FindKeeps(db: Db, targets: set<RoomId>, x: RoomId, c: Call, r: Reply)
    requires c.pc.FindTheGroup?
    requires CallOk(db, targets, x, c) && RowOk(db, targets, x, c)
    ensures Kept(targets, x, AtFindTheGroup(db, x, c, r))
  {
    if r.fate.Done? {
      match FindGroup(db.remote.groups, x) { case Some(_) => case None => }
    }
  }

  lemma MakeGroupKeeps(db: Db, targets: set<RoomId>, x: RoomId, c: Call, r: Reply)
    requires c.pc.MakeGroup?
    requires CallOk(db, targets, x, c) && RowOk(db, targets, x, c)
    ensures Kept(targets, x, AtMakeGroup(db, x, c, r))
  {
    match r.fate { case Done => case Refused => case Lost => }
  }

  lemma MakeKeyKeeps(db: Db, targets: set<RoomId>, x: RoomId, c: Call, r: Reply)
    requires c.pc.MakeKey?
    requires CallOk(db, targets, x, c) && RowOk(db, targets, x, c)
    ensures Kept(targets, x, AtMakeKey(db, x, c, r))
  {
    match r.fate { case Done => case Refused => case Lost => }
  }

  lemma MakePolicyKeeps(db: Db, targets: set<RoomId>, x: RoomId, c: Call, r: Reply)
    requires c.pc.MakePolicy?
    requires CallOk(db, targets, x, c) && RowOk(db, targets, x, c)
    ensures Kept(targets, x, AtMakePolicy(db, x, c, r))
  {
    match r.fate { case Done => case Refused => case Lost => }
  }

  lemma RecordKeyKeeps(db: Db, targets: set<RoomId>, x: RoomId, c: Call, r: Reply)
    requires c.pc.RecordKey?
    requires CallOk(db, targets, x, c) && RowOk(db, targets, x, c)
    ensures Kept(targets, x, AtRecordKey(db, x, c, r))
  {
    hide IdsOk;
    IdsStay(db.remote, targets, x, c, AtRecordKey(db, x, c, r).call);
    match r.fate { case Done => case Refused => case Lost => }
  }

  lemma RecordPolicyKeeps(db: Db, targets: set<RoomId>, x: RoomId, c: Call, r: Reply)
    requires c.pc.RecordPolicy?
    requires CallOk(db, targets, x, c) && RowOk(db, targets, x, c)
    ensures Kept(targets, x, AtRecordPolicy(db, x, c, r))
  {
    hide IdsOk;
    IdsStay(db.remote, targets, x, c, AtRecordPolicy(db, x, c, r).call);
    match r.fate { case Done => case Refused => case Lost => }
  }

  lemma ActivateKeeps(db: Db, targets: set<RoomId>, x: RoomId, c: Call, r: Reply)
    requires c.pc.Activate?
    requires CallOk(db, targets, x, c) && RowOk(db, targets, x, c)
    ensures Kept(targets, x, AtActivate(db, x, c, r))
  {
    hide IdsOk;
    IdsStay(db.remote, targets, x, c, AtActivate(db, x, c, r).call);
    hide Tables.SaveOperation;
    match r.fate { case Done => if c.key == NO_KEY {} else {} case Refused => case Lost => }
  }

  lemma SaveKeeps(db: Db, targets: set<RoomId>, x: RoomId, c: Call, r: Reply)
    requires c.pc.SaveResponse?
    requires CallOk(db, targets, x, c) && RowOk(db, targets, x, c)
    ensures Kept(targets, x, AtSaveResponse(db, x, c, r))
  {
    hide IdsOk;
    IdsStay(db.remote, targets, x, c, AtSaveResponse(db, x, c, r).call);
  }

  lemma DropPolicyKeeps(db: Db, targets: set<RoomId>, x: RoomId, c: Call, r: Reply)
    requires c.pc.DropPolicy?
    requires CallOk(db, targets, x, c) && RowOk(db, targets, x, c)
    ensures Kept(targets, x, AtDropPolicy(db, c, r))
  {
    match r.fate { case Done => case Refused => case Lost => }
  }

  lemma RevokeKeyKeeps(db: Db, targets: set<RoomId>, x: RoomId, c: Call, r: Reply)
    requires c.pc.RevokeKey?
    requires CallOk(db, targets, x, c) && RowOk(db, targets, x, c)
    ensures Kept(targets, x, AtRevokeKey(db, c, r))
  {
    match r.fate { case Done => case Refused => case Lost => }
  }

  lemma DropGroupKeeps(db: Db, targets: set<RoomId>, x: RoomId, c: Call, r: Reply)
    requires c.pc.DropGroup?
    requires CallOk(db, targets, x, c) && RowOk(db, targets, x, c)
    ensures Kept(targets, x, AtDropGroup(db, c, r))
  {
    match r.fate { case Done => case Refused => case Lost => }
  }

  lemma FailRoomKeeps(db: Db, targets: set<RoomId>, x: RoomId, c: Call, r: Reply)
    requires c.pc.FailRoom?
    requires CallOk(db, targets, x, c) && RowOk(db, targets, x, c)
    ensures Kept(targets, x, AtFailRoom(db, x, c, r))
  {
    hide IdsOk;
    IdsStay(db.remote, targets, x, c, AtFailRoom(db, x, c, r).call);
    match r.fate { case Done => case Refused => case Lost => }
  }

  lemma FailOpKeeps(db: Db, targets: set<RoomId>, x: RoomId, c: Call, r: Reply)
    requires c.pc.FailOp?
    requires CallOk(db, targets, x, c) && RowOk(db, targets, x, c)
    ensures Kept(targets, x, AtFailOp(db, c, r))
  {
    hide IdsOk;
    IdsStay(db.remote, targets, x, c, AtFailOp(db, c, r).call);
    match r.fate { case Done => case Refused => case Lost => }
  }

  lemma StepCallKeeps(db: Db, targets: set<RoomId>, x: RoomId, c: Call, r: Reply)
    requires InFlight(c.pc) && CallOk(db, targets, x, c) && RowOk(db, targets, x, c)
    ensures Kept(targets, x, StepCall(db, x, c, r))
  {
    hide Kept, CallOk, RowOk, AtLookup, AtReset, AtInsert, AtInsertRoom, AtFindTheGroup, AtMakeGroup, AtMakeKey,
      AtMakePolicy, AtRecordKey, AtRecordPolicy, AtActivate, AtSaveResponse, AtDropPolicy, AtRevokeKey, AtDropGroup,
      AtFailRoom, AtFailOp;
    match c.pc {
      case Lookup => LookupKeeps(db, targets, x, c, r);
      case Reset => ResetKeeps(db, targets, x, c, r);
      case Insert => InsertKeeps(db, targets, x, c, r);
      case InsertRoom => InsertRoomKeeps(db, targets, x, c, r);
      case FindTheGroup => FindKeeps(db, targets, x, c, r);
      case MakeGroup => MakeGroupKeeps(db, targets, x, c, r);
      case MakeKey => MakeKeyKeeps(db, targets, x, c, r);
      case MakePolicy => MakePolicyKeeps(db, targets, x, c, r);
      case RecordKey => RecordKeyKeeps(db, targets, x, c, r);
      case RecordPolicy => RecordPolicyKeeps(db, targets, x, c, r);
      case Activate => ActivateKeeps(db, targets, x, c, r);
      case SaveResponse => SaveKeeps(db, targets, x, c, r);
      case DropPolicy => DropPolicyKeeps(db, targets, x, c, r);
      case RevokeKey => RevokeKeyKeeps(db, targets, x, c, r);
      case DropGroup => DropGroupKeeps(db, targets, x, c, r);
      case FailRoom => FailRoomKeeps(db, targets, x, c, r);
      case FailOp => FailOpKeeps(db, targets, x, c, r);
    }
  }

  // ---------------------------------------------------------------- what it does to everybody else

  /** The call has passed the INSERT OR IGNORE gate, or says it did. */
  predicate PastGate(c: Call) {
    c.saved || c.pc.InsertRoom? || (InFlight(c.pc) && !BeforeRow(c.pc))
    || (c.pc.Finished? && c.pc.result.Failed? && !c.pc.result.exit.Early?)
  }

  /** Only a record in error is retried, and only inserting the record, or retrying,
      passes the gate. */
  predicate GateMove(a: Db, c: Call, d: Call) {
    var known := c.key in a.tables.ops;
    && (d.retry != c.retry ==> c.pc.Lookup?)
    && (c.pc.Lookup? && d.retry ==> known && a.tables.ops[c.key].status.Error?)
    && (d.pc.Reset? ==> c.pc.Lookup? && d.retry)
    && (d.gated != c.gated ==> c.pc.Insert?)
    && (c.pc.Insert? && d.gated ==> !known || c.retry)
    && (PastGate(d) ==> PastGate(c) || (c.pc.Insert? && d.gated))
  }

  /** The call keeps its key and code, writes at most its own record, and only a
      replayed record or its own finished room can make it succeed. */
  predicate Honest(a: Db, x: RoomId, c: Call, after: CallStep) {
    var b, d := after.db, after.call;
    && d.key == c.key && d.code == c.code && (BeforeRow(c.pc) ==> d.saved == c.saved)
    && (forall j :: j in a.tables.ops ==> j in b.tables.ops && (j != c.key ==> b.tables.ops[j] == a.tables.ops[j]))
    && (forall j :: j in b.tables.ops && j != c.key ==> j in a.tables.ops)
    && GateMove(a, c, d)
    && (c.pc.Insert? && d.gated ==>
          c.key in b.tables.ops && (c.key in a.tables.ops || b.tables.ops[c.key] == Operation(x, Blank, Creating)))
    && (c.key in b.tables.ops ==> OpMove(a, c, d, x, b.tables.ops[c.key]))
    && (d.pc.Finished? && d.pc.result.Success? ==>
          || (d.saved && d.pc.result.response == Own(x, d))
          || (c.pc.Lookup? && c.key in a.tables.ops && !a.tables.ops[c.key].status.Creating?
              && !a.tables.ops[c.key].status.Error? && a.tables.ops[c.key].response == Sealed(d.pc.result.response)))
  }

  predicate OpMove(a: Db, c: Call, d: Call, x: RoomId, op: Operation) {
    || (c.key in a.tables.ops && op == a.tables.ops[c.key] && (d.saved ==> c.saved || c.key == NO_KEY))
    || ((c.pc.Reset? || (c.pc.Insert? && c.key !in a.tables.ops)) && op == Operation(x, Blank, Creating))
    || (c.key in a.tables.ops && d.saved && op == Operation(a.tables.ops[c.key].roomId, Sealed(Own(x, d)), Active))
    || (c.pc.FailOp? && c.key in a.tables.ops && op == Operation(a.tables.ops[c.key].roomId, Blank, Error))
  }

  predicate Local(a: Db, x: RoomId, c: Call, after: CallStep) {
    Confined(a, after.db, x) && Honest(a, x, c, after)
  }

  lemma GateLocal(db: Db, x: RoomId, c: Call, r: Reply)
    requires c.pc.Lookup? || c.pc.Reset? || c.pc.Insert? || c.pc.InsertRoom?
    requires OwnsIds(db.remote, x, c.group, c.keyId, c.policy)
    ensures Local(db, x, c, StepGate(db, x, c, r))
  {
    match c.pc { case Lookup => case Reset => case Insert => case _ => }
  }

  lemma MakeLocal(db: Db, x: RoomId, c: Call, r: Reply)
    requires c.pc.FindTheGroup? || c.pc.MakeGroup? || c.pc.MakeKey? || c.pc.MakePolicy?
    requires OwnsIds(db.remote, x, c.group, c.keyId, c.policy)
    ensures Local(db, x, c, StepMake(db, x, c, r))
  {
    match c.pc { case FindTheGroup => case MakeGroup => case MakeKey => case _ => }
  }

  lemma RecordLocal(db: Db, x: RoomId, c: Call, r: Reply)
    requires c.pc.RecordKey? || c.pc.RecordPolicy?
    requires OwnsIds(db.remote, x, c.group, c.keyId, c.policy)
    ensures Local(db, x, c, StepRecord(db, x, c, r))
  {
    match c.pc { case RecordKey => case _ => }
  }

  lemma CloseLocal(db: Db, x: RoomId, c: Call, r: Reply)
    requires c.pc.Activate? || c.pc.SaveResponse?
    requires OwnsIds(db.remote, x, c.group, c.keyId, c.policy)
    ensures Local(db, x, c, StepClose(db, x, c, r))
  {
    match c.pc { case Activate => case _ => }
  }

  lemma UndoLocal(db: Db, x: RoomId, c: Call, r: Reply)
    requires c.pc.DropPolicy? || c.pc.RevokeKey? || c.pc.DropGroup?
    requires OwnsIds(db.remote, x, c.group, c.keyId, c.policy)
    ensures Local(db, x, c, StepUndo(db, x, c, r))
  {
    match c.pc { case DropPolicy => case RevokeKey => case _ => }
  }

  lemma FailLocal(db: Db, x: RoomId, c: Call, r: Reply)
    requires c.pc.FailRoom? || c.pc.FailOp?
    requires OwnsIds(db.remote, x, c.group, c.keyId, c.policy)
    ensures Local(db, x, c, StepFail(db, x, c, r))
  {
    match c.pc { case FailRoom => case _ => }
  }

  lemma StepCallLocal(db: Db, x: RoomId, c: Call, r: Reply)
    requires InFlight(c.pc) && OwnsIds(db.remote, x, c.group, c.keyId, c.policy)
    ensures Local(db, x, c, StepCall(db, x, c, r))
  {
    hide Local, StepGate, StepMake, StepRecord, StepClose, StepUndo, StepFail;
    match c.pc {
      case Lookup | Reset | Insert | InsertRoom => GateLocal(db, x, c, r);
      case FindTheGroup | MakeGroup | MakeKey | MakePolicy => MakeLocal(db, x, c, r);
      case RecordKey | RecordPolicy => RecordLocal(db, x, c, r);
      case Activate | SaveResponse => CloseLocal(db, x, c, r);
      case DropPolicy | RevokeKey | DropGroup => UndoLocal(db, x, c, r);
      case FailRoom | FailOp => FailLocal(db, x, c, r);
    }
  }

  // ---------------------------------------------------------------- what the others notice

  lemma OthersKeep(a: Db, b: Db, t: set<RoomId>, u: set<RoomId>, x: RoomId, y: RoomId, c: Call)
    requires Confined(a, b, x) && t <= u && y != x
    requires CallOk(a, t, y, c) && RowOk(a, t, y, c)
    ensures CallOk(b, u, y, c) && RowOk(b, u, y, c)
  {
  }

  lemma CodesStayUnique(a: Db, b: Db, x: RoomId)
    requires Confined(a, b, x) && a.tables.UniqueCodes()
    ensures b.tables.UniqueCodes()
  {
  }

  lemma DisableKeeps(a: Db, b: Db, t: set<RoomId>, u: set<RoomId>, x: RoomId, d: Disabling)
    requires Confined(a, b, x) && t <= u && DisableOk(a, t, d)
    ensures DisableOk(b, u, d)
  {
  }

  // ---------------------------------------------------------------- a step of Create keeps the invariant

  lemma AdvanceCalls(s: World, x: RoomId, r: Reply)
    requires Inv(s) && x < |s.calls| && InFlight(s.calls[x].pc)
    ensures var m := StepCall(s.db, x, s.calls[x], r);
      CallsOk(m.db, s.targets, s.calls[x := m.call]) && RowsBelong(m.db, s.calls[x := m.call])
      && DisablesOk(m.db, s.targets, s.disables)
  {
    var m := StepCall(s.db, x, s.calls[x], r);
    assert CallOk(s.db, s.targets, x, s.calls[x]);
    StepCallKeeps(s.db, s.targets, x, s.calls[x], r);
    StepCallLocal(s.db, x, s.calls[x], r);
    CodesStayUnique(s.db, m.db, x);
    hide StepCall, CallOk, RowOk, DisableOk;
    forall y | 0 <= y < |s.calls| && y != x
      ensures CallOk(m.db, s.targets, y, s.calls[y]) && RowOk(m.db, s.targets, y, s.calls[y])
    {
      OthersKeep(s.db, m.db, s.targets, s.targets, x, y, s.calls[y]);
    }
    forall i | 0 <= i < |s.disables| ensures DisableOk(m.db, s.targets, s.disables[i]) {
      DisableKeeps(s.db, m.db, s.targets, s.targets, x, s.disables[i]);
    }
  }

  lemma IssuedStays(calls: seq<Call>, x: RoomId, d: Call, key: IdemKey, response: Response)
    requires x < |calls| && !calls[x].saved && Issued(calls, key, response)
    ensures Issued(calls[x := d], key, response) && response.roomId != x
  {
  }

  lemma AdvanceResults(s: World, x: RoomId, r: Reply)
    requires Inv(s) && x < |s.calls| && InFlight(s.calls[x].pc)
    ensures ResultsOk(s.calls[x := StepCall(s.db, x, s.calls[x], r).call])
  {
    var c := s.calls[x];
    var m := StepCall(s.db, x, c, r);
    assert CallOk(s.db, s.targets, x, c);
    StepCallLocal(s.db, x, c, r);
    hide StepCall, CallOk, Confined, CallsOk, RowsBelong, DisablesOk, PhaseOk;
    var calls := s.calls[x := m.call];
    forall y | 0 <= y < |calls| ensures ResultOk(calls, y) {
      assert ResultOk(s.calls, y);
      if calls[y].pc.Finished? && calls[y].pc.result.Success? {
        var response := calls[y].pc.result.response;
        if y != x {
          IssuedStays(s.calls, x, m.call, calls[y].key, response);
        } else if !m.call.saved || response != Own(x, m.call) {
          assert OpOk(s.calls, c.key, s.db.tables.ops[c.key]);
          IssuedStays(s.calls, x, m.call, c.key, response);
        }
      }
    }
  }

  lemma OpStays(calls: seq<Call>, x: RoomId, d: Call, k: IdemKey, op: Operation)
    requires x < |calls| && !calls[x].saved && d.key == calls[x].key && OpOk(calls, k, op)
    requires op.status.Creating? && op.roomId == x ==> !d.saved
    ensures OpOk(calls[x := d], k, op)
  {
    if op.status.Active? { IssuedStays(calls, x, d, k, op.response.clear); }
  }

  lemma OwnOpMoves(a: Db, calls: seq<Call>, x: RoomId, d: Call, op: Operation)
    requires x < |calls| && InFlight(calls[x].pc) && !calls[x].saved && HoldsFor(calls[x]) && d.key == calls[x].key
    requires d.key in a.tables.ops ==> OpOk(calls, d.key, a.tables.ops[d.key])
    requires OpMove(a, calls[x], d, x, op)
    requires BeforeRow(calls[x].pc) ==> !d.saved
    ensures OpOk(calls[x := d], d.key, op)
  {
    if d.key in a.tables.ops && op == a.tables.ops[d.key] && (d.saved ==> d.key == NO_KEY) {
      OpStays(calls, x, d, d.key, op);
    }
  }

  lemma AdvanceOps(s: World, x: RoomId, r: Reply)
    requires Inv(s) && x < |s.calls| && InFlight(s.calls[x].pc)
    ensures var m := StepCall(s.db, x, s.calls[x], r); OpsOk(s.calls[x := m.call], m.db.tables.ops)
  {
    var c := s.calls[x];
    var m := StepCall(s.db, x, c, r);
    assert CallOk(s.db, s.targets, x, c);
    StepCallLocal(s.db, x, c, r);
    StepCallKeeps(s.db, s.targets, x, c, r);
    hide StepCall, Confined, CallsOk, RowsBelong, DisablesOk, PhaseOk, ResultsOk, OwnsIds, Alive, Complete, OpOk,
      OpMove, HoldsFor;
    var calls := s.calls[x := m.call];
    forall k | k in m.db.tables.ops ensures OpOk(calls, k, m.db.tables.ops[k]) {
      if k == c.key {
        OwnOpMoves(s.db, s.calls, x, m.call, m.db.tables.ops[k]);
      } else {
        OpOfAnotherKey(s.calls, x, k, s.db.tables.ops[k]);
        OpStays(s.calls, x, m.call, k, s.db.tables.ops[k]);
      }
    }
  }

  lemma OpOfAnotherKey(calls: seq<Call>, x: RoomId, k: IdemKey, op: Operation)
    requires x < |calls| && k != calls[x].key && OpOk(calls, k, op)
    ensures op.roomId != x
  {
  }

  // ---------------------------------------------------------------- a step of Disable

  lemma DisableLocal(db: Db, targets: set<RoomId>, d: Disabling, fate: Fate, hit: Option<RoomId>)
    requires !d.at.Closed? && DisableOk(db, targets, d)
    requires d.at.Find? && hit.Some? ==> hit.value in db.tables.rooms
    ensures var m := StepDisable(db, d, fate, hit);
      Confined(db, m.db, d.room) && m.db.tables.ops == db.tables.ops
  {
    match d.at { case Find => case Revoke => case Drop => case _ => }
  }

  lemma DisableMoves(db: Db, targets: set<RoomId>, d: Disabling, fate: Fate, hit: Option<RoomId>, c: Call)
    requires !d.at.Closed? && DisableOk(db, targets, d)
    requires d.at.Find? && hit.Some? ==> hit.value in db.tables.rooms
    requires d.at.Find? && hit.Some? ==> CallOk(db, targets, hit.value, c) && RowOk(db, targets, hit.value, c)
    ensures var m := StepDisable(db, d, fate, hit);
      DisableOk(m.db, if m.d.at.Revoke? then targets + {m.d.room} else targets, m.d)
  {
    match d.at { case Find => case Revoke => case Drop => case _ => }
  }

  lemma DisabledRoomKeeps(db: Db, targets: set<RoomId>, d: Disabling, fate: Fate, hit: Option<RoomId>, c: Call)
    requires !d.at.Closed? && DisableOk(db, targets, d)
    requires d.at.Find? && hit.Some? ==> hit.value in db.tables.rooms
    requires CallOk(db, targets, d.room, c) && RowOk(db, targets, d.room, c)
    ensures var m := StepDisable(db, d, fate, hit);
      CallOk(m.db, targets, d.room, c) && RowOk(m.db, targets, d.room, c)
  {
    match d.at {
      case Find =>
      case Revoke => if fate.Refused? {} else {}
      case Drop => if fate.Refused? {} else {}
      case _ => if fate.Refused? {} else {}
    }
  }

  // ---------------------------------------------------------------- a step of Reconcile

  lemma BootConfined(db: Db, b: Boot, fate: Fate)
    requires BootOk(db, b)
    ensures Confined(db, StepBoot(db, b, fate).db, b.todo[0].roomId)
  {
    match b.at {
      case Fetch => case BootPolicy => case BootRevoke =>
      case BootKey => case BootGroup => case MarkRoom => case _ =>
    }
  }

  lemma BootLocal(db: Db, b: Boot, fate: Fate)
    requires BootOk(db, b)
    ensures var m, p := StepBoot(db, b, fate), b.todo[0];
      && Confined(db, m.db, p.roomId)
      && (forall k :: k in db.tables.ops <==> k in m.db.tables.ops)
      && (forall k :: k in db.tables.ops && k != p.key ==> m.db.tables.ops[k] == db.tables.ops[k])
      && (m.db.tables.ops[p.key] == db.tables.ops[p.key] || m.db.tables.ops[p.key] == Operation(p.roomId, Blank, Error))
  {
    BootConfined(db, b, fate);
    hide Confined, OwnsIds;
    match b.at {
      case Fetch => case BootPolicy => case BootRevoke =>
      case BootKey => case BootGroup => case MarkRoom => case _ =>
    }
  }

  /** The room under repair is not one whose save took effect, and nobody works on it. */
  lemma RepairedRoomKeeps(db: Db, targets: set<RoomId>, b: Boot, fate: Fate, c: Call)
    requires BootOk(db, b) && !c.saved && !InFlight(c.pc)
    requires CallOk(db, targets, b.todo[0].roomId, c) && RowOk(db, targets, b.todo[0].roomId, c)
    ensures var m, x := StepBoot(db, b, fate), b.todo[0].roomId;
      CallOk(m.db, targets, x, c) && RowOk(m.db, targets, x, c)
  {
    BootLocal(db, b, fate);
    match b.at {
      case Fetch => case BootPolicy => case BootRevoke =>
      case BootKey => case BootGroup => case MarkRoom => case _ =>
    }
  }

  lemma BootMoves(db: Db, targets: set<RoomId>, b: Boot, fate: Fate, c: Call)
    requires BootOk(db, b)
    requires CallOk(db, targets, b.todo[0].roomId, c) && RowOk(db, targets, b.todo[0].roomId, c)
    ensures var m := StepBoot(db, b, fate); Working(m.boot) ==> BootOk(m.db, m.boot)
  {
    BootLocal(db, b, fate);
    match b.at {
      case Fetch => case BootPolicy => case BootRevoke =>
      case BootKey => case BootGroup => case MarkRoom => case _ =>
    }
  }

  // ---------------------------------------------------------------- every action keeps the invariant

  lemma AdvanceInv(s: World, x: RoomId, r: Reply)
    requires Inv(s) && Enabled(s, Advance(x, r))
    ensures Inv(Next(s, Advance(x, r)))
  {
    AdvanceCalls(s, x, r);
    AdvanceResults(s, x, r);
    AdvanceOps(s, x, r);
    hide StepCall, CallsOk, RowsBelong, DisablesOk, ResultsOk, OpsOk;
  }

  lemma MoreTargets(db: Db, t: set<RoomId>, u: set<RoomId>, x: RoomId, c: Call)
    requires t <= u && CallOk(db, t, x, c) && RowOk(db, t, x, c)
    ensures CallOk(db, u, x, c) && RowOk(db, u, x, c)
  {
  }

  lemma DisableCalls(s: World, i: nat, fate: Fate, hit: Option<RoomId>)
    requires Inv(s) && Enabled(s, AdvanceDisable(i, fate, hit))
    ensures var t := Next(s, AdvanceDisable(i, fate, hit)); CallsOk(t.db, t.targets, s.calls)
  {
    var d, t := s.disables[i], Next(s, AdvanceDisable(i, fate, hit));
    assert DisableOk(s.db, s.targets, d);
    DisableLocal(s.db, s.targets, d, fate, hit);
    forall y | 0 <= y < |s.calls|
      ensures CallOk(t.db, t.targets, y, s.calls[y]) && RowOk(t.db, t.targets, y, s.calls[y])
    {
      assert CallOk(s.db, s.targets, y, s.calls[y]) && RowOk(s.db, s.targets, y, s.calls[y]);
      if y == d.room {
        DisabledRoomKeeps(s.db, s.targets, d, fate, hit, s.calls[y]);
        MoreTargets(t.db, s.targets, t.targets, y, s.calls[y]);
      } else {
        OthersKeep(s.db, t.db, s.targets, t.targets, d.room, y, s.calls[y]);
      }
    }
    hide StepDisable, CallOk, RowOk, DisableOk, OpOk, ResultOk, Inv;
  }

  lemma DisableOthers(s: World, i: nat, fate: Fate, hit: Option<RoomId>)
    requires Inv(s) && Enabled(s, AdvanceDisable(i, fate, hit))
    ensures var t := Next(s, AdvanceDisable(i, fate, hit)); DisablesOk(t.db, t.targets, t.disables)
  {
    var d, t := s.disables[i], Next(s, AdvanceDisable(i, fate, hit));
    var x := if d.at.Find? && hit.Some? then hit.value else if d.room < |s.calls| then d.room else 0;
    assert DisableOk(s.db, s.targets, d);
    DisableLocal(s.db, s.targets, d, fate, hit);
    if x < |s.calls| { DisableMoves(s.db, s.targets, d, fate, hit, s.calls[x]); }
    forall j | 0 <= j < |s.disables| && j != i ensures DisableOk(t.db, t.targets, s.disables[j]) {
      DisableKeeps(s.db, t.db, s.targets, t.targets, d.room, s.disables[j]);
    }
    hide StepDisable, CallOk, RowOk, OpOk, ResultOk;
  }

  lemma DisableInv(s: World, i: nat, fate: Fate, hit: Option<RoomId>)
    requires Inv(s) && Enabled(s, AdvanceDisable(i, fate, hit))
    ensures Inv(Next(s, AdvanceDisable(i, fate, hit)))
  {
    var d := s.disables[i];
    var m := StepDisable(s.db, d, fate, hit);
    assert DisableOk(s.db, s.targets, d);
    DisableCalls(s, i, fate, hit);
    DisableOthers(s, i, fate, hit);
    DisableLocal(s.db, s.targets, d, fate, hit);
    CodesStayUnique(s.db, m.db, d.room);
    hide StepDisable, CallsOk, DisablesOk, OpOk, ResultOk, DisableOk;
  }

  lemma RepairRooms(s: World, fate: Fate)
    requires Inv(s) && s.phase.Repairing?
    ensures var m := StepBoot(s.db, s.phase.boot, fate);
      && CallsOk(m.db, s.targets, s.calls) && RowsBelong(m.db, s.calls) && DisablesOk(m.db, s.targets, s.disables)
      && (Working(m.boot) ==> BootOk(m.db, m.boot))
  {
    var b := s.phase.boot;
    var m, p := StepBoot(s.db, b, fate), b.todo[0];
    assert OpOk(s.calls, p.key, s.db.tables.ops[p.key]);
    assert CallOk(s.db, s.targets, p.roomId, s.calls[p.roomId]) && RowOk(s.db, s.targets, p.roomId, s.calls[p.roomId]);
    BootLocal(s.db, b, fate);
    BootMoves(s.db, s.targets, b, fate, s.calls[p.roomId]);
    CodesStayUnique(s.db, m.db, p.roomId);
    RepairedRoomKeeps(s.db, s.targets, b, fate, s.calls[p.roomId]);
    hide StepBoot, CallOk, RowOk, DisableOk, ResultOk, BootOk, OpOk;
    forall y | 0 <= y < |s.calls| && y != p.roomId
      ensures CallOk(m.db, s.targets, y, s.calls[y]) && RowOk(m.db, s.targets, y, s.calls[y])
    {
      OthersKeep(s.db, m.db, s.targets, s.targets, p.roomId, y, s.calls[y]);
    }
    forall j | 0 <= j < |s.disables| ensures DisableOk(m.db, s.targets, s.disables[j]) {
      DisableKeeps(s.db, m.db, s.targets, s.targets, p.roomId, s.disables[j]);
    }
  }

  lemma RepairOps(s: World, fate: Fate)
    requires Inv(s) && s.phase.Repairing?
    ensures OpsOk(s.calls, StepBoot(s.db, s.phase.boot, fate).db.tables.ops)
  {
    var m, p := StepBoot(s.db, s.phase.boot, fate), s.phase.boot.todo[0];
    BootLocal(s.db, s.phase.boot, fate);
    hide StepBoot, CallsOk, RowsBelong, DisablesOk, ResultsOk, Confined;
    forall k | k in m.db.tables.ops ensures OpOk(s.calls, k, m.db.tables.ops[k]) {
      assert OpOk(s.calls, k, s.db.tables.ops[k]);
    }
  }

  lemma RepairInv(s: World, fate: Fate)
    requires Inv(s) && Enabled(s, Repair(fate))
    ensures Inv(Next(s, Repair(fate)))
  {
    RepairRooms(s, fate);
    RepairOps(s, fate);
    hide StepBoot, CallsOk, RowsBelong, DisablesOk, ResultsOk, OpsOk, BootOk;
  }

  lemma ListInv(s: World, fate: Fate, todo: seq<Pending>)
    requires Inv(s) && Enabled(s, ListPending(fate, todo))
    ensures Inv(Next(s, ListPending(fate, todo)))
  {
    hide CallOk, RowOk, DisableOk, ResultOk, OpOk;
  }

  lemma ArriveInv(s: World, key: IdemKey, code: Code)
    requires Inv(s) && Enabled(s, Arrive(key, code))
    ensures Inv(Next(s, Arrive(key, code)))
  {
    var s' := Next(s, Arrive(key, code));
    forall x | 0 <= x < |s'.calls| ensures ResultOk(s'.calls, x) {
      if x < |s.calls| { assert ResultOk(s.calls, x); }
    }
    hide CallOk, RowOk, DisableOk;
    NewCallOk(s, key, code);
  }

  lemma NewCallOk(s: World, key: IdemKey, code: Code)
    requires RowsBelong(s.db, s.calls)
    ensures CallOk(s.db, s.targets, |s.calls|, NewCall(key, code))
    ensures RowOk(s.db, s.targets, |s.calls|, NewCall(key, code))
  {
  }

  lemma CrashInv(s: World)
    requires Inv(s)
    ensures Inv(Next(s, Crash))
  {
    var s' := Next(s, Crash);
    forall x | 0 <= x < |s'.calls|
      ensures CallOk(s'.db, s'.targets, x, s'.calls[x]) && RowOk(s'.db, s'.targets, x, s'.calls[x])
    {
      assert CallOk(s.db, s.targets, x, s.calls[x]) && RowOk(s.db, s.targets, x, s.calls[x]);
    }
    forall x | 0 <= x < |s'.calls| ensures ResultOk(s'.calls, x) { assert ResultOk(s.calls, x); }
    forall k | k in s'.db.tables.ops ensures OpOk(s'.calls, k, s'.db.tables.ops[k]) {
      assert OpOk(s.calls, k, s.db.tables.ops[k]);
    }
    hide CallOk, RowOk, ResultOk, OpOk;
  }

  lemma ForeignInv(s: World, name: RoomId)
    requires Inv(s)
    ensures Inv(Next(s, ForeignGroup(name)))
  {
    var s' := Next(s, ForeignGroup(name));
    forall x | 0 <= x < |s'.calls|
      ensures CallOk(s'.db, s'.targets, x, s'.calls[x]) && RowOk(s'.db, s'.targets, x, s'.calls[x])
    {
      assert CallOk(s.db, s.targets, x, s.calls[x]) && RowOk(s.db, s.targets, x, s.calls[x]);
    }
    forall i | 0 <= i < |s.disables| ensures DisableOk(s'.db, s'.targets, s.disables[i]) {
      assert DisableOk(s.db, s.targets, s.disables[i]);
    }
    hide CallOk, RowOk, ResultOk, OpOk, DisableOk;
  }

  lemma NextInv(s: World, a: Action)
    requires Inv(s) && Enabled(s, a)
    ensures Inv(Next(s, a))
  {
    hide Inv, Next;
    match a
    case Arrive(key, code) => ArriveInv(s, key, code);
    case Advance(x, r) => AdvanceInv(s, x, r);
    case AskDisable(code) => AskInv(s, code);
    case AdvanceDisable(i, fate, hit) => DisableInv(s, i, fate, hit);
    case ForeignGroup(name) => ForeignInv(s, name);
    case Crash => CrashInv(s);
    case ListPending(fate, todo) => ListInv(s, fate, todo);
    case Repair(fate) => RepairInv(s, fate);
  }

  lemma AskInv(s: World, code: Code)
    requires Inv(s) && Enabled(s, AskDisable(code))
    ensures Inv(Next(s, AskDisable(code)))
  {
    hide CallOk, RowOk, ResultOk, OpOk;
  }

  lemma RunStep(w: seq<World>, acts: seq<Action>, i: nat)
    requires IsRun(w, acts) && i + 1 < |w|
    ensures |w| == |acts| + 1 && Enabled(w[i], acts[i]) && w[i + 1] == Next(w[i], acts[i])
  {
  }

  /** Every world of every run satisfies the invariant. */
  lemma {:induction false} RunInv(w: seq<World>, acts: seq<Action>, n: nat)
    requires IsRun(w, acts) && Init(w[0]) && n < |w|
    ensures Inv(w[n])
  {
    if n == 0 {
    } else {
      RunInv(w, acts, n - 1);
      NextInv(w[n - 1], acts[n - 1]);
    }
  }
}
