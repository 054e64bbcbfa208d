/** The provisioning saga as a state machine (room-api/internal/rooms/service.go).

    Every store call and every NetBird call of Create, Disable and Reconcile is one
    step; any number of Create and Disable calls interleave, a crash drops them all,
    and the startup Reconcile runs alone before the server serves
    (room-api/cmd/room-api/main.go).

    Room ids are fresh: the call with number x is the only one that draws the room id x.
    A failed Seal, and a failed draw of random bytes, leave exactly as a refused
    store call at the same place does, so they are not separate steps. */
module Provisioning {
  import opened Outcomes
  import opened RoomTables
  import opened NetBirdState

  const MANAGEMENT_URL: URL := 1

  datatype Db = Db(tables: Tables, remote: Remote)

  // ---------------------------------------------------------------- one Create call

  datatype Exit =
    | Early    // before there is a row to mark: service.go:93, 108, 113, 124
    | Unwound  // through fail(): service.go:135-171
    | Tail     // after the policy is recorded: service.go:174, 181, 184

  datatype Result = Success(response: Response) | InProgress | Failed(exit: Exit)

  datatype Pc =
    | Lookup | Reset | Insert | InsertRoom
    | FindTheGroup | MakeGroup | MakeKey | RecordKey | MakePolicy | RecordPolicy
    | Activate | SaveResponse
    | DropPolicy | RevokeKey | DropGroup | FailRoom | FailOp
    | Finished(result: Result)
    | Crashed

  /** `saved` and `gated` are history: the call's final SaveOperation took effect (or,
      with no key, it returned); the call passed the INSERT OR IGNORE gate. `sure` says
      that no creation of the call was Lost, `tidy` that no compensating delete was Refused. */
  datatype Call = Call(
    key: IdemKey, code: Code, pc: Pc, retry: bool,
    group: Option<nat>, made: bool, keyId: Option<nat>, secret: Secret, policy: Option<nat>, sweep: bool,
    saved: bool, gated: bool, sure: bool, tidy: bool)

  datatype Reply = Reply(fate: Fate, secret: Secret)

  // The shared state and the caller after one step.
  datatype CallStep = CallStep(db: Db, call: Call)

  function NewCall(key: IdemKey, code: Code): Call {
    Call(key, code, if key == NO_KEY then InsertRoom else Lookup, false,
         None, false, None, 0, None, false, false, false, true, true)
  }

  predicate InFlight(pc: Pc) { !pc.Finished? && !pc.Crashed? }

  function Own(x: RoomId, c: Call): Response {
    Response(x, Some(c.code), MANAGEMENT_URL, c.secret)
  }

  function Out(exit: Exit): Pc { Finished(Failed(exit)) }

  // A statement or a NetBird call takes effect unless it was Refused.
  function Write(db: Db, fate: Fate, tables: Tables): Db {
    Db(if fate.Applied() then tables else db.tables, db.remote)
  }

  function Ask(db: Db, fate: Fate, remote: Remote): Db {
    Db(db.tables, if fate.Applied() then remote else db.remote)
  }

  /** One external call of Create, and everything up to the next one. */
  function StepCall(db: Db, x: RoomId, c: Call, r: Reply): CallStep
    requires InFlight(c.pc)
  {
    match c.pc
    case Lookup | Reset | Insert | InsertRoom => StepGate(db, x, c, r)
    case FindTheGroup | MakeGroup | MakeKey | MakePolicy => StepMake(db, x, c, r)
    case RecordKey | RecordPolicy => StepRecord(db, x, c, r)
    case Activate | SaveResponse => StepClose(db, x, c, r)
    case DropPolicy | RevokeKey | DropGroup => StepUndo(db, x, c, r)
    case FailRoom | FailOp => StepFail(db, x, c, r)
  }

  /** The idempotency gate and the insertion of the row, service.go:73-125. */
  function StepGate(db: Db, x: RoomId, c: Call, r: Reply): CallStep
    requires c.pc.Lookup? || c.pc.Reset? || c.pc.Insert? || c.pc.InsertRoom?
  {
    match c.pc
    case Lookup => AtLookup(db, c, r)
    case Reset => AtReset(db, x, c, r)
    case Insert => AtInsert(db, x, c, r)
    case InsertRoom => AtInsertRoom(db, x, c, r)
  }

  function AtLookup(db: Db, c: Call, r: Reply): CallStep {
    var ok, known := r.fate.Done?, c.key in db.tables.ops;
    CallStep(db, c.(pc := if !ok then Out(Early) else if known then AfterLookup(db.tables.ops[c.key]) else Insert,
                    retry := ok && known && db.tables.ops[c.key].status.Error?))
  }

  function AtReset(db: Db, x: RoomId, c: Call, r: Reply): CallStep {
    CallStep(Write(db, r.fate, db.tables.ResetOperation(c.key, x)),
             c.(pc := if r.fate.Done? then Insert else Out(Early)))
  }

  function AtInsert(db: Db, x: RoomId, c: Call, r: Reply): CallStep {
    var ok, pass := r.fate.Done?, c.key !in db.tables.ops || c.retry;
    CallStep(Write(db, r.fate, db.tables.BeginOperation(c.key, x)),
             c.(pc := if !ok then Out(Early) else if pass then InsertRoom else Finished(InProgress),
                gated := ok && pass))
  }

  function AtInsertRoom(db: Db, x: RoomId, c: Call, r: Reply): CallStep {
    var ok := r.fate.Done? && !db.tables.Clashes(x, Digest(c.code));
    CallStep(Write(db, r.fate, db.tables.CreateRoom(x, Digest(c.code))),
             c.(pc := if ok then FindTheGroup else Out(Early)))
  }

  /** The NetBird calls that provision, service.go:128-143 and 159-166. */
  function StepMake(db: Db, x: RoomId, c: Call, r: Reply): CallStep
    requires c.pc.FindTheGroup? || c.pc.MakeGroup? || c.pc.MakeKey? || c.pc.MakePolicy?
  {
    match c.pc
    case FindTheGroup => AtFindTheGroup(db, x, c, r)
    case MakeGroup => AtMakeGroup(db, x, c, r)
    case MakeKey => AtMakeKey(db, x, c, r)
    case MakePolicy => AtMakePolicy(db, x, c, r)
  }

  function AtFindTheGroup(db: Db, x: RoomId, c: Call, r: Reply): CallStep {
    var found := if r.fate.Done? then FindGroup(db.remote.groups, x) else None;
    CallStep(db, c.(pc := if !r.fate.Done? then FailRoom else if found.Some? then MakeKey else MakeGroup,
                    group := found))
  }

  function AtMakeGroup(db: Db, x: RoomId, c: Call, r: Reply): CallStep {
    var ok := r.fate.Done?;
    CallStep(Ask(db, r.fate, db.remote.CreateGroup(x, true)),
             c.(pc := if ok then MakeKey else FailRoom,
                group := if ok then Some(|db.remote.groups|) else None, made := ok, sure := c.sure && !r.fate.Lost?))
  }

  function AtMakeKey(db: Db, x: RoomId, c: Call, r: Reply): CallStep {
    var ok := r.fate.Done?;
    CallStep(Ask(db, r.fate, db.remote.CreateSetupKey(x, r.secret)),
             c.(pc := if ok then RecordKey else if c.made then DropGroup else FailRoom,
                keyId := if ok then Some(|db.remote.keys|) else None, secret := r.secret,
                sure := c.sure && !r.fate.Lost?))
  }

  function AtMakePolicy(db: Db, x: RoomId, c: Call, r: Reply): CallStep {
    var ok := r.fate.Done?;
    CallStep(Ask(db, r.fate, db.remote.CreatePolicy(x)),
             c.(pc := if ok then RecordPolicy else RevokeKey,
                policy := if ok then Some(|db.remote.policies|) else None, sure := c.sure && !r.fate.Lost?))
  }

  /** The two UpdateExternalIDs, service.go:152 and 167. The policy compensation of
      service.go:168-171 deletes the group without asking who created it (`sweep`). */
  function StepRecord(db: Db, x: RoomId, c: Call, r: Reply): CallStep
    requires c.pc.RecordKey? || c.pc.RecordPolicy?
  {
    match c.pc
    case RecordKey => AtRecordKey(db, x, c, r)
    case RecordPolicy => AtRecordPolicy(db, x, c, r)
  }

  function AtRecordKey(db: Db, x: RoomId, c: Call, r: Reply): CallStep {
    CallStep(Write(db, r.fate, db.tables.UpdateExternalIDs(x, c.group, c.keyId, None, Sealed(c.secret))),
             c.(pc := if r.fate.Done? then MakePolicy else RevokeKey))
  }

  function AtRecordPolicy(db: Db, x: RoomId, c: Call, r: Reply): CallStep {
    CallStep(Write(db, r.fate, db.tables.UpdateExternalIDs(x, c.group, c.keyId, c.policy, Sealed(c.secret))),
             c.(pc := if r.fate.Done? then Activate else DropPolicy, sweep := !r.fate.Done?))
  }

  /** The room becomes active and the response is saved, service.go:173-188. */
  function StepClose(db: Db, x: RoomId, c: Call, r: Reply): CallStep
    requires c.pc.Activate? || c.pc.SaveResponse?
  {
    match c.pc
    case Activate => AtActivate(db, x, c, r)
    case SaveResponse => AtSaveResponse(db, x, c, r)
  }

  function AtActivate(db: Db, x: RoomId, c: Call, r: Reply): CallStep {
    var ok, unkeyed := r.fate.Done?, c.key == NO_KEY;
    CallStep(Write(db, r.fate, db.tables.SetStatus(x, Active)),
             c.(pc := if !ok then Out(Tail) else if unkeyed then Finished(Success(Own(x, c))) else SaveResponse,
                saved := ok && unkeyed))
  }

  function AtSaveResponse(db: Db, x: RoomId, c: Call, r: Reply): CallStep {
    CallStep(Write(db, r.fate, db.tables.SaveOperation(c.key, Sealed(Own(x, c)), Active)),
             c.(pc := if r.fate.Done? then Finished(Success(Own(x, c))) else Out(Tail), saved := r.fate.Applied()))
  }

  /** The compensating deletes, service.go:139-171. */
  function StepUndo(db: Db, x: RoomId, c: Call, r: Reply): CallStep
    requires c.pc.DropPolicy? || c.pc.RevokeKey? || c.pc.DropGroup?
  {
    match c.pc
    case DropPolicy => AtDropPolicy(db, c, r)
    case RevokeKey => AtRevokeKey(db, c, r)
    case DropGroup => AtDropGroup(db, c, r)
  }

  function AtDropPolicy(db: Db, c: Call, r: Reply): CallStep {
    CallStep(Ask(db, r.fate, db.remote.DeletePolicy(c.policy)), c.(pc := RevokeKey, tidy := c.tidy && !r.fate.Refused?))
  }

  function AtRevokeKey(db: Db, c: Call, r: Reply): CallStep {
    CallStep(Ask(db, r.fate, db.remote.RevokeSetupKey(c.keyId)),
             c.(pc := if c.made || c.sweep then DropGroup else FailRoom, tidy := c.tidy && !r.fate.Refused?))
  }

  function AtDropGroup(db: Db, c: Call, r: Reply): CallStep {
    CallStep(Ask(db, r.fate, db.remote.DeleteGroup(c.group)), c.(pc := FailRoom, tidy := c.tidy && !r.fate.Refused?))
  }

  /** fail(), service.go:244-251. */
  function StepFail(db: Db, x: RoomId, c: Call, r: Reply): CallStep
    requires c.pc.FailRoom? || c.pc.FailOp?
  {
    match c.pc
    case FailRoom => AtFailRoom(db, x, c, r)
    case FailOp => AtFailOp(db, c, r)
  }

  function AtFailRoom(db: Db, x: RoomId, c: Call, r: Reply): CallStep {
    CallStep(Write(db, r.fate, db.tables.SetStatus(x, Error)),
             c.(pc := if c.key == NO_KEY then Out(Unwound) else FailOp))
  }

  function AtFailOp(db: Db, c: Call, r: Reply): CallStep {
    CallStep(Write(db, r.fate, db.tables.SaveOperation(c.key, Blank, Error)), c.(pc := Out(Unwound)))
  }

  function AfterLookup(op: Operation): Pc {
    match op.status
    case Creating => Finished(InProgress)
    case Error => Reset
    case _ =>
      match Open(op.response)
      case Some(response) => Finished(Success(response))
      case None => Finished(Failed(Early))
  }

  // ---------------------------------------------------------------- the startup Reconcile

  datatype Pending = Pending(key: IdemKey, roomId: RoomId)

  datatype BootPc = Fetch | BootPolicy | BootRevoke | BootKey | BootGroup | MarkRoom | MarkOp

  datatype Boot =
    | Reconciling(todo: seq<Pending>, at: BootPc, row: Option<Room>)
    | Ended(ok: bool)

  predicate Working(b: Boot) { b.Reconciling? && b.todo != [] }

  function Rest(todo: seq<Pending>): Boot {
    if todo == [] then Ended(true) else Reconciling(todo, Fetch, None)
  }

  // The next call Reconcile makes for this row, at or after the given one.
  function NextFor(row: Room, from: BootPc): BootPc {
    if from.BootPolicy? && row.policyId.Some? then BootPolicy
    else if (from.BootPolicy? || from.BootRevoke?) && row.setupKeyId.Some? then BootRevoke
    else if from != MarkRoom && row.groupId.Some? then BootGroup
    else MarkRoom
  }

  datatype BootStep = BootStep(db: Db, boot: Boot)

  function StepBoot(db: Db, b: Boot, fate: Fate): BootStep
    requires Working(b)
    requires !b.at.Fetch? && !b.at.MarkOp? ==> b.row.Some?
  {
    var p, ok := b.todo[0], fate.Done?;
    match b.at
    case Fetch =>
      if !ok then BootStep(db, Ended(false))
      else if p.roomId !in db.tables.rooms then BootStep(db, b.(at := MarkOp))
      else
        var row := db.tables.rooms[p.roomId];
        BootStep(db, b.(at := NextFor(row, BootPolicy), row := Some(row)))
    case BootPolicy =>
      BootStep(Ask(db, fate, db.remote.DeletePolicy(b.row.value.policyId)),
       b.(at := NextFor(b.row.value, BootRevoke)))
    case BootRevoke =>
      BootStep(Ask(db, fate, db.remote.RevokeSetupKey(b.row.value.setupKeyId)),
       b.(at := BootKey))
    case BootKey =>
      BootStep(Ask(db, fate, db.remote.DeleteSetupKey(b.row.value.setupKeyId)),
       b.(at := NextFor(b.row.value, BootGroup)))
    case BootGroup =>
      BootStep(Ask(db, fate, db.remote.DeleteGroup(b.row.value.groupId)),
       b.(at := MarkRoom))
    case MarkRoom =>
      BootStep(Write(db, fate, db.tables.SetStatus(p.roomId, Error)), if ok then b.(at := MarkOp) else Ended(false))
    case MarkOp =>
      BootStep(Write(db, fate, db.tables.SaveOperation(p.key, Blank, Error)),
       if ok then Rest(b.todo[1..]) else Ended(false))
  }

  // ---------------------------------------------------------------- Disable

  datatype DisablePc = Find | Revoke | Drop | Mark | Closed(ok: bool)

  datatype Disabling = Disabling(code: Code, at: DisablePc, room: RoomId, keyId: Option<nat>, policyId: Option<nat>)

  datatype DisableStep = DisableStep(db: Db, d: Disabling)

  /** `hit` is the row GetRoomByCodeHash answers with; only Find looks at it. */
  function StepDisable(db: Db, d: Disabling, fate: Fate, hit: Option<RoomId>): DisableStep
    requires !d.at.Closed?
    requires d.at.Find? && hit.Some? ==> hit.value in db.tables.rooms
  {
    var ok := fate.Done?;
    match d.at
    case Find =>
      if !ok || hit.None? then DisableStep(db, d.(at := Closed(false))) else
      var row := db.tables.rooms[hit.value];
      if row.status.Disabled? then DisableStep(db, d.(at := Closed(true)))
      else DisableStep(db, d.(at := Revoke, room := hit.value, keyId := row.setupKeyId, policyId := row.policyId))
    case Revoke =>
      DisableStep(Ask(db, fate, db.remote.RevokeSetupKey(d.keyId)),
       d.(at := if !ok then Closed(false) else if d.policyId.Some? then Drop else Mark))
    case Drop =>
      DisableStep(Ask(db, fate, db.remote.DeletePolicy(d.policyId)),
       d.(at := if ok then Mark else Closed(false)))
    case Mark =>
      DisableStep(Write(db, fate, db.tables.SetStatus(d.room, Disabled)), d.(at := Closed(ok)))
  }

  // ---------------------------------------------------------------- Join

  /** Join's answer once GetRoomByCodeHash has answered: None is ErrInvalidRoom or a
      setup key that does not open. */
  function JoinRow(x: RoomId, row: Room): Option<Response> {
    if !row.status.Active? then None else
    match Open(row.setupKey)
    case Some(secret) => Some(Response(x, None, MANAGEMENT_URL, secret))
    case None => None
  }

  // ---------------------------------------------------------------- the whole server

  datatype Phase = Starting | Repairing(boot: Boot) | Serving

  /** `targets` is history: the rooms some Disable got past its lookup for.
      `errored` is history: the keys whose record has been in status Error. */
  datatype World = World(
    db: Db, calls: seq<Call>, disables: seq<Disabling>, phase: Phase,
    targets: set<RoomId>, errored: set<IdemKey>)

  datatype Action =
    | Arrive(key: IdemKey, code: Code)
    | Advance(x: RoomId, reply: Reply)
    | AskDisable(code: Code)
    | AdvanceDisable(i: nat, fate: Fate, hit: Option<RoomId>)
    | ForeignGroup(name: RoomId)                 // someone else creates a group called room-<name>
    | Crash
    | ListPending(fate: Fate, todo: seq<Pending>)
    | Repair(fate: Fate)

  /** The answer of ListOperationsByStatus("creating"), in any order. */
  ghost predicate IsListing(ops: map<IdemKey, Operation>, todo: seq<Pending>) {
    && (forall i :: 0 <= i < |todo| ==>
          todo[i].key in ops && ops[todo[i].key].status.Creating? && ops[todo[i].key].roomId == todo[i].roomId)
    && (forall i, j :: 0 <= i < j < |todo| ==> todo[i].key != todo[j].key)
    && (forall k :: k in ops && ops[k].status.Creating? ==> exists i :: 0 <= i < |todo| && todo[i].key == k)
  }

  ghost predicate Answers(tables: Tables, code: Code, hit: Option<RoomId>) {
    match hit
    case Some(x) => tables.Finds(Digest(code), x)
    case None => tables.NoSuchCode(Digest(code))
  }

  ghost predicate Enabled(s: World, a: Action) {
    match a
    case Arrive(_, _) => s.phase.Serving?
    case Advance(x, _) => x < |s.calls| && InFlight(s.calls[x].pc)
    case AskDisable(_) => s.phase.Serving?
    case AdvanceDisable(i, _, hit) =>
      && i < |s.disables| && !s.disables[i].at.Closed?
      && (s.disables[i].at.Find? ==> Answers(s.db.tables, s.disables[i].code, hit))
    case ForeignGroup(_) => true
    case Crash => true
    case ListPending(_, todo) => s.phase.Starting? && IsListing(s.db.tables.ops, todo)
    case Repair(_) => s.phase.Repairing? && Working(s.phase.boot)
                      && (!s.phase.boot.at.Fetch? && !s.phase.boot.at.MarkOp? ==> s.phase.boot.row.Some?)
  }

  // main.go logs a failed Reconcile and serves all the same.
  function AfterBoot(b: Boot): Phase {
    if Working(b) then Repairing(b) else Serving
  }

  function ErrorKeys(ops: map<IdemKey, Operation>): set<IdemKey> {
    set k | k in ops && ops[k].status.Error?
  }

  function Put(s: World, db: Db): World {
    s.(db := db, errored := s.errored + ErrorKeys(db.tables.ops))
  }

  function DropCall(c: Call): Call { if InFlight(c.pc) then c.(pc := Crashed) else c }

  function DropDisable(d: Disabling): Disabling { if d.at.Closed? then d else d.(at := Closed(false)) }

  ghost function Next(s: World, a: Action): World
    requires Enabled(s, a)
  {
    match a
    case Arrive(key, code) => s.(calls := s.calls + [NewCall(key, code)])
    case Advance(x, reply) =>
      var step := StepCall(s.db, x, s.calls[x], reply);
      Put(s, step.db).(calls := s.calls[x := step.call])
    case AskDisable(code) => s.(disables := s.disables + [Disabling(code, Find, 0, None, None)])
    case AdvanceDisable(i, fate, hit) =>
      var step := StepDisable(s.db, s.disables[i], fate, hit);
      Put(s, step.db).(disables := s.disables[i := step.d],
                       targets := if step.d.at.Revoke? then s.targets + {step.d.room} else s.targets)
    case ForeignGroup(name) => s.(db := s.db.(remote := s.db.remote.CreateGroup(name, false)))
    case Crash =>
      s.(calls := seq(|s.calls|, i requires 0 <= i < |s.calls| => DropCall(s.calls[i])),
         disables := seq(|s.disables|, i requires 0 <= i < |s.disables| => DropDisable(s.disables[i])),
         phase := Starting)
    case ListPending(fate, todo) => s.(phase := if fate.Done? then AfterBoot(Rest(todo)) else Serving)
    case Repair(fate) =>
      var step := StepBoot(s.db, s.phase.boot, fate);
      Put(s, step.db).(phase := AfterBoot(step.boot))
  }

  /** Nothing stored, NetBird in any state of its own making, the process about to start. */
  ghost predicate Init(s: World) {
    && s.db.tables == Tables(map[], map[]) && s.db.remote.keys == [] && s.db.remote.policies == []
    && (forall g :: 0 <= g < |s.db.remote.groups| ==> !s.db.remote.groups[g].made)
    && s.calls == [] && s.disables == [] && s.phase.Starting? && s.targets == {} && s.errored == {}
  }

  /** The worlds w[0], w[1], ... of a run under the actions acts[0], acts[1], ... */
  ghost predicate IsRun(w: seq<World>, acts: seq<Action>) {
    && |w| == |acts| + 1
    && forall i :: 0 <= i < |acts| ==> Enabled(w[i], acts[i]) && w[i + 1] == Next(w[i], acts[i])
  }
}
