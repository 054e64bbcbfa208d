/** How a keyed Create that ends without a success leaves its record, and what becomes of the
    key then: as long as the record says "creating", every call with that key is turned away,
    and only a Reconcile can write it. */
module ProvisioningStuck {
  import opened Outcomes
  import opened RoomTables
  import opened NetBirdState
  import opened Provisioning
  import opened ProvisioningInvariant
  import opened ProvisioningIdempotence

  // ---------------------------------------------------------------- a key nobody works on

  // What a call that finds the record in progress can still do.
  predicate Asking(c: Call) { c.pc.Lookup? || (c.pc.Insert? && !c.retry) }

  /** The record of the key is creating and names a room nobody works on any more. */
  ghost predicate Stuck(s: World, k: IdemKey, x: RoomId) {
    && PendingFor(s.db.tables.ops, k, x)
    && forall y :: 0 <= y < |s.calls| && s.calls[y].key == k && InFlight(s.calls[y].pc) ==> Asking(s.calls[y])
  }

  /** The step of Reconcile that puts the record of the key in error. */
  predicate Frees(s: World, a: Action, k: IdemKey) {
    && a.Repair? && a.fate.Applied() && s.phase.Repairing? && Working(s.phase.boot)
    && s.phase.boot.at.MarkOp? && s.phase.boot.todo[0].key == k
  }

  predicate TurnedAway(c: Call) {
    c.pc.Finished? ==> c.pc.result.InProgress? || c.pc.result == Failed(Early)
  }

  lemma StuckPending(s: World, k: IdemKey, x: RoomId)
    requires Stuck(s, k, x)
    ensures PendingFor(s.db.tables.ops, k, x)
  {
  }

  lemma AskingStep(db: Db, x: RoomId, c: Call, r: Reply)
    requires Asking(c) && c.key in db.tables.ops && db.tables.ops[c.key].status.Creating?
    ensures var m := StepCall(db, x, c, r);
      && m.db.tables.ops == db.tables.ops && m.call.key == c.key
      && (InFlight(m.call.pc) ==> Asking(m.call)) && TurnedAway(m.call)
  {
    hide StepMake, StepRecord, StepClose, StepUndo, StepFail;
  }

  /** A call that finds its record creating is told "in progress", and fails early if its
      statement is not answered. */
  lemma InProgressAnswers(s: World, y: RoomId, r: Reply)
    requires Inv(s) && Enabled(s, Advance(y, r)) && Asking(s.calls[y])
    requires s.calls[y].key in s.db.tables.ops && s.db.tables.ops[s.calls[y].key].status.Creating?
    ensures Next(s, Advance(y, r)).calls[y].pc == if r.fate.Done? then Finished(InProgress) else Out(Early)
  {
    hide StepMake, StepRecord, StepClose, StepUndo, StepFail, Inv;
  }

  lemma AdvanceStuck(s: World, y: RoomId, r: Reply, k: IdemKey, x: RoomId)
    requires Inv(s) && Stuck(s, k, x) && Enabled(s, Advance(y, r))
    ensures var t := Next(s, Advance(y, r));
      Stuck(t, k, x) && (t.calls[y].key == k ==> TurnedAway(t.calls[y]))
  {
    var c := s.calls[y];
    assert CallOk(s.db, s.targets, y, c);
    StepCallLocal(s.db, y, c, r);
    if c.key == k { AskingStep(s.db, y, c, r); }
    hide StepCall, Inv, Confined, TurnedAway, Asking;
  }

  lemma RepairStuck(s: World, fate: Fate, k: IdemKey, x: RoomId)
    requires Inv(s) && Stuck(s, k, x) && Enabled(s, Repair(fate))
    ensures Stuck(Next(s, Repair(fate)), k, x) <==> !Frees(s, Repair(fate), k)
    ensures Frees(s, Repair(fate), k) ==>
              var ops := Next(s, Repair(fate)).db.tables.ops; k in ops && ops[k].status.Error?
  {
    var b := s.phase.boot;
    assert BootOk(s.db, b);
    hide Inv, BootOk;
    BootLocal(s.db, b, fate);
    MarksOp(s.db, b, fate);
    hide StepBoot, Confined, Asking;
    var t := Next(s, Repair(fate));
    assert t.calls == s.calls;
    assert PendingFor(t.db.tables.ops, k, x) <==> !Frees(s, Repair(fate), k);
  }

  lemma MarksOp(db: Db, b: Boot, fate: Fate)
    requires BootOk(db, b)
    ensures var k, ops := b.todo[0].key, StepBoot(db, b, fate).db.tables.ops;
      ops[k] == if b.at.MarkOp? && fate.Applied() then Operation(b.todo[0].roomId, Blank, Error) else db.tables.ops[k]
  {
    match b.at {
      case Fetch => case BootPolicy => case BootRevoke =>
      case BootKey => case BootGroup => case MarkRoom => case _ =>
    }
  }

  lemma OthersStuck(s: World, a: Action, k: IdemKey, x: RoomId)
    requires Inv(s) && Stuck(s, k, x) && Enabled(s, a) && !a.Advance? && !a.Repair?
    ensures Stuck(Next(s, a), k, x)
  {
    assert OpOk(s.calls, k, s.db.tables.ops[k]);
    match a
    case AdvanceDisable(i, fate, hit) =>
      assert DisableOk(s.db, s.targets, s.disables[i]);
      DisableLocal(s.db, s.targets, s.disables[i], fate, hit);
      hide StepDisable, Inv, Confined;
    case _ => hide Inv, StepBoot, StepCall;
  }

  /** A key that is stuck stays stuck under every action but the one. */
  lemma StuckNext(s: World, a: Action, k: IdemKey, x: RoomId)
    requires Inv(s) && Stuck(s, k, x) && Enabled(s, a)
    ensures Stuck(Next(s, a), k, x) <==> !Frees(s, a, k)
    ensures Frees(s, a, k) ==> var ops := Next(s, a).db.tables.ops; k in ops && ops[k].status.Error?
  {
    hide Inv, Next, Stuck;
    match a
    case Advance(y, r) => AdvanceStuck(s, y, r, k, x);
    case Repair(fate) => RepairStuck(s, fate, k, x);
    case _ => OthersStuck(s, a, k, x);
  }

  // Every call of the key that was under way, or came later, is on its way to be turned away.
  ghost predicate AllTurnedAway(s: World, k: IdemKey, since: World) {
    && |since.calls| <= |s.calls|
    && forall y :: 0 <= y < |s.calls| && s.calls[y].key == k && (y < |since.calls| ==> InFlight(since.calls[y].pc)) ==>
         TurnedAway(s.calls[y])
  }

  lemma TurnedAwayNext(s: World, a: Action, k: IdemKey, x: RoomId, since: World)
    requires Inv(s) && Stuck(s, k, x) && Enabled(s, a) && AllTurnedAway(s, k, since)
    ensures AllTurnedAway(Next(s, a), k, since)
  {
    assert OpOk(s.calls, k, s.db.tables.ops[k]);
    match a
    case Advance(y, r) =>
      AdvanceStuck(s, y, r, k, x);
      KeyKept(s, a, y);
      hide StepCall, Inv, Stuck, TurnedAway;
    case _ => hide Inv, Stuck, StepCall, StepBoot, StepDisable;
  }

  lemma {:induction false} StuckAlong(w: seq<World>, acts: seq<Action>, n: nat, m: nat, k: IdemKey, x: RoomId)
    requires IsRun(w, acts) && Init(w[0]) && n <= m < |w| && Stuck(w[n], k, x)
    requires forall i :: n <= i < m ==> !Frees(w[i], acts[i], k)
    ensures Stuck(w[m], k, x) && AllTurnedAway(w[m], k, w[n])
  {
    hide Inv, Next, Enabled, Init, IsRun, Stuck, Frees;
    if n < m {
      RunStep(w, acts, m - 1);
      StuckAlong(w, acts, n, m - 1, k, x);
      RunInv(w, acts, m - 1);
      StuckNext(w[m - 1], acts[m - 1], k, x);
      TurnedAwayNext(w[m - 1], acts[m - 1], k, x, w[n]);
    }
  }

  // ---------------------------------------------------------------- how a key gets stuck

  // Nobody's record names the room of a call that has not claimed its own.
  ghost predicate Unclaimed(s: World) {
    forall x :: 0 <= x < |s.calls| ==> UnclaimedAt(s.db.tables.ops, x, s.calls[x])
  }

  predicate UnclaimedAt(ops: map<IdemKey, Operation>, x: RoomId, c: Call) {
    && (c.pc.Reset? ==> c.retry)
    && ((c.pc.Reset? || Asking(c)) && c.key in ops ==> ops[c.key].roomId != x)
  }

  lemma OwnUnclaimed(db: Db, x: RoomId, c: Call, r: Reply)
    requires BeforeRow(c.pc) && UnclaimedAt(db.tables.ops, x, c)
    ensures var m := StepGate(db, x, c, r); UnclaimedAt(m.db.tables.ops, x, m.call)
  {
    hide AtLookup, AtReset, AtInsert, AtInsertRoom, UnclaimedAt;
    match c.pc {
      case Lookup => LookupUnclaimed(db, x, c, r);
      case Reset => ResetUnclaimed(db, x, c, r);
      case Insert => InsertUnclaimed(db, x, c, r);
      case _ => RowUnclaimed(db, x, c, r);
    }
  }

  lemma LookupUnclaimed(db: Db, x: RoomId, c: Call, r: Reply)
    requires c.pc.Lookup? && UnclaimedAt(db.tables.ops, x, c)
    ensures UnclaimedAt(db.tables.ops, x, AtLookup(db, c, r).call) && AtLookup(db, c, r).db == db
  {
    if r.fate.Done? && c.key in db.tables.ops {
      match db.tables.ops[c.key].status { case Creating => case Error => case _ => }
    }
  }

  lemma ResetUnclaimed(db: Db, x: RoomId, c: Call, r: Reply)
    requires c.pc.Reset? && UnclaimedAt(db.tables.ops, x, c)
    ensures var m := AtReset(db, x, c, r); UnclaimedAt(m.db.tables.ops, x, m.call)
  {
  }

  lemma InsertUnclaimed(db: Db, x: RoomId, c: Call, r: Reply)
    requires c.pc.Insert? && UnclaimedAt(db.tables.ops, x, c)
    ensures var m := AtInsert(db, x, c, r); UnclaimedAt(m.db.tables.ops, x, m.call)
  {
  }

  lemma RowUnclaimed(db: Db, x: RoomId, c: Call, r: Reply)
    requires c.pc.InsertRoom? && UnclaimedAt(db.tables.ops, x, c)
    ensures var m := AtInsertRoom(db, x, c, r); UnclaimedAt(m.db.tables.ops, x, m.call)
  {
  }

  lemma OtherUnclaimed(a: Db, x: RoomId, c: Call, m: CallStep, y: RoomId, e: Call)
    requires Honest(a, x, c, m) && x != y && UnclaimedAt(a.tables.ops, y, e)
    ensures UnclaimedAt(m.db.tables.ops, y, e)
  {
  }

  lemma UnclaimedNext(s: World, a: Action)
    requires Inv(s) && Unclaimed(s) && Enabled(s, a)
    ensures Unclaimed(Next(s, a))
  {
    match a
    case Advance(x, r) =>
      var c, m := s.calls[x], StepCall(s.db, x, s.calls[x], r);
      assert CallOk(s.db, s.targets, x, c);
      StepCallLocal(s.db, x, c, r);
      // Once it has its row, it never asks again.
      if BeforeRow(c.pc) { OwnUnclaimed(s.db, x, c, r); } else { StepCallKeeps(s.db, s.targets, x, c, r); }
      hide StepCall, Inv, UnclaimedAt, Confined, Honest;
      forall y | 0 <= y < |s.calls| && y != x ensures UnclaimedAt(m.db.tables.ops, y, s.calls[y]) {
        OtherUnclaimed(s.db, x, c, m, y, s.calls[y]);
      }
    case AdvanceDisable(i, fate, hit) =>
      assert DisableOk(s.db, s.targets, s.disables[i]);
      DisableLocal(s.db, s.targets, s.disables[i], fate, hit);
      hide StepDisable, Inv, Confined;
    case Repair(fate) =>
      assert BootOk(s.db, s.phase.boot);
      BootLocal(s.db, s.phase.boot, fate);
      hide StepBoot, Inv, Confined, BootOk;
    case Arrive(k, _) =>
      if k in s.db.tables.ops { assert OpOk(s.calls, k, s.db.tables.ops[k]); }
      hide Inv;
    case _ => hide Inv;
  }

  lemma {:induction false} UnclaimedAlong(w: seq<World>, acts: seq<Action>, n: nat)
    requires IsRun(w, acts) && Init(w[0]) && n < |w|
    ensures Unclaimed(w[n])
  {
    hide Inv, Next, Enabled, IsRun;
    if n > 0 {
      RunStep(w, acts, n - 1);
      UnclaimedAlong(w, acts, n - 1);
      RunInv(w, acts, n - 1);
      UnclaimedNext(w[n - 1], acts[n - 1]);
    }
  }

  // ---------------------------------------------------------------- who passes the gate

  /** The call that made the record of a fresh key has passed the gate, or was not told so. */
  ghost predicate OwnersOk(s: World) {
    forall k :: k in s.db.tables.ops && k !in s.errored ==> OwnerOk(s.calls, s.db.tables.ops[k].roomId)
  }

  predicate OwnerOk(calls: seq<Call>, x: RoomId) { x < |calls| && (calls[x].gated || calls[x].pc == Out(Early)) }

  lemma AdvanceOwners(s: World, x: RoomId, r: Reply, k: IdemKey)
    requires Inv(s) && GateOk(s) && Unclaimed(s) && OwnersOk(s) && Enabled(s, Advance(x, r))
    requires var t := Next(s, Advance(x, r)); k in t.db.tables.ops && k !in t.errored
    ensures var t := Next(s, Advance(x, r)); OwnerOk(t.calls, t.db.tables.ops[k].roomId)
  {
    var c, m := s.calls[x], StepCall(s.db, x, s.calls[x], r);
    assert CallOk(s.db, s.targets, x, c) && GateCallOk(s.db.tables.ops, s.errored, x, c);
    assert UnclaimedAt(s.db.tables.ops, x, c);
    StepCallLocal(s.db, x, c, r);
    if k == c.key {
      if c.pc.Insert? && k !in s.db.tables.ops { InsertOwns(s.db, x, c, r); }
      OwnKeyOwner(s.db, s.calls, s.errored, x, m);
    } else {
      assert OpOk(s.calls, k, s.db.tables.ops[k]) && OwnerOk(s.calls, s.db.tables.ops[k].roomId);
      OtherKeyOwner(s.db, s.calls, x, m, k);
    }
    hide StepCall, Inv, Confined, Honest, GateOk, Unclaimed, OwnerOk, UnclaimedAt, GateCallOk, OpOk;
  }

  lemma OtherKeyOwner(db: Db, calls: seq<Call>, x: RoomId, m: CallStep, k: IdemKey)
    requires x < |calls| && k != calls[x].key && Honest(db, x, calls[x], m) && k in db.tables.ops
    requires OpOk(calls, k, db.tables.ops[k]) && OwnerOk(calls, db.tables.ops[k].roomId)
    ensures k in m.db.tables.ops && OwnerOk(calls[x := m.call], m.db.tables.ops[k].roomId)
  {
  }

  lemma OwnKeyOwner(db: Db, calls: seq<Call>, errored: set<IdemKey>, x: RoomId, m: CallStep)
    requires x < |calls| && InFlight(calls[x].pc) && Honest(db, x, calls[x], m)
    requires UnclaimedAt(db.tables.ops, x, calls[x]) && GateCallOk(db.tables.ops, errored, x, calls[x])
    requires var k := calls[x].key;
      && k in m.db.tables.ops && k !in errored && !m.db.tables.ops[k].status.Error?
      && (k in db.tables.ops ==> OwnerOk(calls, db.tables.ops[k].roomId))
      && (k !in db.tables.ops && calls[x].pc.Insert? ==>
            m.db.tables.ops[k].roomId == x && (m.call.gated || m.call.pc == Out(Early)))
    ensures OwnerOk(calls[x := m.call], m.db.tables.ops[calls[x].key].roomId)
  {
  }

  lemma InsertOwns(db: Db, x: RoomId, c: Call, r: Reply)
    requires c.pc.Insert? && c.key !in db.tables.ops
    ensures var m := StepCall(db, x, c, r);
      c.key in m.db.tables.ops ==>
        m.db.tables.ops[c.key] == Operation(x, Blank, Creating) && (m.call.gated || m.call.pc == Out(Early))
  {
    hide StepMake, StepRecord, StepClose, StepUndo, StepFail;
  }

  lemma OwnersNext(s: World, a: Action)
    requires Inv(s) && GateOk(s) && Unclaimed(s) && OwnersOk(s) && Enabled(s, a)
    ensures OwnersOk(Next(s, a))
  {
    match a
    case Advance(x, r) =>
      var t := Next(s, a);
      forall k | k in t.db.tables.ops && k !in t.errored ensures OwnerOk(t.calls, t.db.tables.ops[k].roomId) {
        AdvanceOwners(s, x, r, k);
      }
      hide Next, Inv, GateOk, Unclaimed, OwnerOk;
    case AdvanceDisable(i, fate, hit) =>
      assert DisableOk(s.db, s.targets, s.disables[i]);
      DisableLocal(s.db, s.targets, s.disables[i], fate, hit);
      hide StepDisable, Inv, Confined, OwnerOk;
    case Repair(fate) =>
      assert BootOk(s.db, s.phase.boot);
      BootLocal(s.db, s.phase.boot, fate);
      hide StepBoot, Inv, Confined, BootOk, OwnerOk;
    case _ => hide Inv, GateOk, Unclaimed;
  }

  lemma {:induction false} OwnersAlong(w: seq<World>, acts: seq<Action>, n: nat)
    requires IsRun(w, acts) && Init(w[0]) && n < |w|
    ensures OwnersOk(w[n])
  {
    hide Inv, Next, Enabled, IsRun, GateOk, Unclaimed;
    if n > 0 {
      RunStep(w, acts, n - 1);
      OwnersAlong(w, acts, n - 1);
      RunInv(w, acts, n - 1);
      GateAlong(w, acts, n - 1);
      UnclaimedAlong(w, acts, n - 1);
      OwnersNext(w[n - 1], acts[n - 1]);
    }
  }

  /** Of the calls with a key whose record has never been in error, the one whose room the
      record names passes the gate and no other does; if it does not, its BeginOperation took
      effect and was reported as an error, and nobody passes. Without a record nobody has
      passed. */
  lemma ExactlyOnePasses(w: seq<World>, acts: seq<Action>, n: nat, k: IdemKey, x: RoomId)
    requires IsRun(w, acts) && Init(w[0]) && n < |w| && k != NO_KEY && k !in w[n].errored
    requires x < |w[n].calls| && w[n].calls[x].key == k
    ensures var ops, calls := w[n].db.tables.ops, w[n].calls;
      && (calls[x].gated ==> k in ops && ops[k].roomId == x)
      && (k in ops && ops[k].roomId == x ==> calls[x].gated || calls[x].pc == Out(Early))
  {
    OwnersAlong(w, acts, n);
    GateAlong(w, acts, n);
    assert GateCallOk(w[n].db.tables.ops, w[n].errored, x, w[n].calls[x]);
  }

  // ---------------------------------------------------------------- how a call ends

  /** A call ends and its record goes on saying that it is under way. */
  ghost predicate Abandons(s: World, a: Action, x: RoomId)
    requires Enabled(s, a)
  {
    && x < |s.calls| && InFlight(s.calls[x].pc) && !InFlight(Next(s, a).calls[x].pc)
    && PendingFor(Next(s, a).db.tables.ops, s.calls[x].key, x)
  }

  /** It has claimed the record and not finished it: it is past the gate, or about to pass it
      as a retry. */
  predicate Claimed(c: Call) { Holding(c.pc) || (c.pc.Insert? && c.retry) }

  /** The replies that end a call so: BeginOperation or ResetOperation took effect unheard, a
      retry's BeginOperation failed, the row could not be inserted, the room not activated,
      the response not saved, or the error not recorded. */
  predicate EndsPending(tables: Tables, x: RoomId, c: Call, fate: Fate) {
    match c.pc
    case Reset => fate.Lost?
    case Insert => !fate.Done? && (c.retry || (fate.Lost? && c.key !in tables.ops))
    case InsertRoom => !fate.Done? || tables.Clashes(x, Digest(c.code))
    case Activate => !fate.Done?
    case SaveResponse | FailOp => fate.Refused?
    case _ => false
  }

  lemma GateEnds(db: Db, x: RoomId, c: Call, r: Reply)
    requires c.pc.Lookup? || c.pc.Reset? || c.pc.Insert? || c.pc.InsertRoom?
    requires c.key != NO_KEY && CallKeyOk(db, x, c) && UnclaimedAt(db.tables.ops, x, c)
    ensures var m := StepGate(db, x, c, r);
      !InFlight(m.call.pc) && PendingFor(m.db.tables.ops, c.key, x) <==> EndsPending(db.tables, x, c, r.fate)
  {
    match c.pc { case Lookup => case Reset => case Insert => case _ => }
  }

  lemma MakingGoesOn(db: Db, x: RoomId, c: Call, r: Reply)
    requires c.pc.FindTheGroup? || c.pc.MakeGroup? || c.pc.MakeKey? || c.pc.MakePolicy?
    ensures InFlight(StepMake(db, x, c, r).call.pc)
  {
    hide FindGroup;
    match c.pc { case FindTheGroup => case MakeGroup => case MakeKey => case _ => }
  }

  lemma RecordingGoesOn(db: Db, x: RoomId, c: Call, r: Reply)
    requires c.pc.RecordKey? || c.pc.RecordPolicy?
    ensures InFlight(StepRecord(db, x, c, r).call.pc)
  {
  }

  lemma UndoingGoesOn(db: Db, x: RoomId, c: Call, r: Reply)
    requires c.pc.DropPolicy? || c.pc.RevokeKey? || c.pc.DropGroup?
    ensures InFlight(StepUndo(db, x, c, r).call.pc)
  {
    match c.pc { case DropPolicy => case RevokeKey => case _ => }
  }

  lemma GoesOn(db: Db, x: RoomId, c: Call, r: Reply)
    requires InFlight(c.pc) && !BeforeRow(c.pc) && !c.pc.Activate? && !c.pc.SaveResponse? && !c.pc.FailOp?
    requires c.key != NO_KEY
    ensures InFlight(StepCall(db, x, c, r).call.pc)
  {
    match c.pc
    case FindTheGroup | MakeGroup | MakeKey | MakePolicy => MakingGoesOn(db, x, c, r); hide *;
    case DropPolicy | RevokeKey | DropGroup => UndoingGoesOn(db, x, c, r); hide *;
    case RecordKey | RecordPolicy => RecordingGoesOn(db, x, c, r); hide *;
    case _ => hide StepGate, StepMake, StepRecord, StepClose, StepUndo;
  }

  lemma LastEnds(db: Db, x: RoomId, c: Call, r: Reply)
    requires c.pc.Activate? || c.pc.SaveResponse? || c.pc.FailOp?
    requires c.key != NO_KEY && PendingFor(db.tables.ops, c.key, x)
    ensures var m := StepCall(db, x, c, r);
      !InFlight(m.call.pc) && PendingFor(m.db.tables.ops, c.key, x) <==> EndsPending(db.tables, x, c, r.fate)
  {
    hide StepGate, StepMake, StepRecord, StepUndo;
    match c.pc { case Activate => case SaveResponse => case _ => }
  }

  lemma CallEnds(db: Db, x: RoomId, c: Call, r: Reply)
    requires InFlight(c.pc) && c.key != NO_KEY && CallKeyOk(db, x, c) && UnclaimedAt(db.tables.ops, x, c)
    ensures var m := StepCall(db, x, c, r);
      !InFlight(m.call.pc) && PendingFor(m.db.tables.ops, c.key, x) <==> EndsPending(db.tables, x, c, r.fate)
  {
    if BeforeRow(c.pc) {
      GateEnds(db, x, c, r);
      hide StepMake, StepRecord, StepClose, StepUndo, StepFail;
    } else if c.pc.Activate? || c.pc.SaveResponse? || c.pc.FailOp? {
      LastEnds(db, x, c, r);
      hide StepCall;
    } else {
      GoesOn(db, x, c, r);
      hide StepCall;
    }
    hide StepGate, UnclaimedAt;
  }

  lemma AbandonsIff(s: World, a: Action, x: RoomId)
    requires Inv(s) && Enabled(s, a) && Unclaimed(s) && x < |s.calls| && InFlight(s.calls[x].pc)
    requires s.calls[x].key != NO_KEY && KeyOk(s, s.calls[x].key)
    ensures Abandons(s, a, x) <==>
              || (a.Crash? && Claimed(s.calls[x]))
              || (a.Advance? && a.x == x && EndsPending(s.db.tables, x, s.calls[x], a.reply.fate))
  {
    var c := s.calls[x];
    assert CallKeyOk(s.db, x, c) && UnclaimedAt(s.db.tables.ops, x, c);
    assert Asking(c) || c.pc.Reset? || Claimed(c);
    if a.Advance? && a.x == x { CallEnds(s.db, x, c, a.reply); }
    hide StepCall, StepBoot, StepDisable, Inv, KeyOk, Unclaimed, EndsPending;
  }

  /** When a keyed Create leaves its key in progress behind it: the process dies after the
      call has claimed the record, or one of those replies ends it. In every other way to end
      once it is past the gate, its record is in error, which lets the key be retried, or
      holds its response. */
  lemma AbandonedIff(w: seq<World>, acts: seq<Action>, n: nat, x: RoomId)
    requires IsRun(w, acts) && Init(w[0]) && n < |acts| && x < |w[n].calls| && InFlight(w[n].calls[x].pc)
    requires w[n].calls[x].key != NO_KEY && forall i :: 0 <= i < n ==> OneReset(w[i], w[n].calls[x].key)
    ensures var c, a := w[n].calls[x], acts[n];
      && (Abandons(w[n], a, x) <==>
            || (a.Crash? && Claimed(c))
            || (a.Advance? && a.x == x && EndsPending(w[n].db.tables, x, c, a.reply.fate)))
      && (Holding(c.pc) && !InFlight(w[n + 1].calls[x].pc) && !Abandons(w[n], a, x) ==>
            Settled(w[n + 1].db.tables.ops, x, c))
  {
    var k := w[n].calls[x].key;
    RunStep(w, acts, n);
    RunInv(w, acts, n);
    UnclaimedAlong(w, acts, n);
    KeyAlong(w, acts, n, k);
    AbandonsIff(w[n], acts[n], x);
    assert CallKeyOk(w[n].db, x, w[n].calls[x]);
    if Holding(w[n].calls[x].pc) && !InFlight(w[n + 1].calls[x].pc) && !Abandons(w[n], acts[n], x) {
      EndsSettled(w[n], acts[n], x);
    }
    hide IsRun, Init, Inv, Next, Enabled, KeyOk, OneReset, Unclaimed, EndsPending, CallKeyOk;
  }

  /** The record says how the call ended: with the error, or with the response. */
  predicate Settled(ops: map<IdemKey, Operation>, x: RoomId, c: Call) {
    && c.key in ops
    && ((c.pc.FailOp? && ops[c.key] == Operation(x, Blank, Error))
        || (c.pc.SaveResponse? && ops[c.key] == Operation(x, Sealed(Own(x, c)), Active)))
  }

  lemma EndsSettled(s: World, a: Action, x: RoomId)
    requires Inv(s) && Enabled(s, a) && x < |s.calls| && Holding(s.calls[x].pc) && s.calls[x].key != NO_KEY
    requires PendingFor(s.db.tables.ops, s.calls[x].key, x)
    requires !InFlight(Next(s, a).calls[x].pc) && !Abandons(s, a, x)
    ensures Settled(Next(s, a).db.tables.ops, x, s.calls[x])
  {
    if a.Advance? && a.x == x { StepSettles(s.db, x, s.calls[x], a.reply); }
    hide StepCall, StepBoot, StepDisable, Inv;
  }

  lemma StepSettles(db: Db, x: RoomId, c: Call, r: Reply)
    requires Holding(c.pc) && c.key != NO_KEY && PendingFor(db.tables.ops, c.key, x)
    requires var m := StepCall(db, x, c, r); !InFlight(m.call.pc) && !PendingFor(m.db.tables.ops, c.key, x)
    ensures Settled(StepCall(db, x, c, r).db.tables.ops, x, c)
  {
    if c.pc.Activate? || c.pc.SaveResponse? || c.pc.FailOp? {
      hide StepGate, StepMake, StepRecord, StepUndo;
      match c.pc { case Activate => case SaveResponse => case _ => }
    } else if !c.pc.InsertRoom? {
      GoesOn(db, x, c, r);
      hide StepCall;
    } else {
      hide StepMake, StepRecord, StepClose, StepUndo, StepFail, Tables.Clashes;
    }
  }

  /** From then on the key is stuck: every call with it, under way or yet to come, is told "in
      progress" or fails before the gate, until the one step that can free it, a Reconcile's
      last statement for that record; then the record is in error. */
  lemma AbandonedStaysStuck(w: seq<World>, acts: seq<Action>, n: nat, m: nat, x: RoomId)
    requires IsRun(w, acts) && Init(w[0]) && n < m < |w| && Abandons(w[n], acts[n], x)
    requires w[n].calls[x].key != NO_KEY && forall i :: 0 <= i <= n ==> OneReset(w[i], w[n].calls[x].key)
    requires forall i :: n < i < m ==> !Frees(w[i], acts[i], w[n].calls[x].key)
    ensures var k := w[n].calls[x].key;
      && Stuck(w[m], k, x) && AllTurnedAway(w[m], k, w[n + 1])
      && (m < |acts| ==>
            var ops := w[m + 1].db.tables.ops;
            k in ops && if Frees(w[m], acts[m], k) then ops[k].status.Error? else PendingFor(ops, k, x))
  {
    hide IsRun, Init, Inv, Next, Enabled, KeyOk, OneReset, Frees, Stuck, AllTurnedAway;
    var k := w[n].calls[x].key;
    RunStep(w, acts, n);
    RunInv(w, acts, n);
    KeyAlong(w, acts, n + 1, k);
    AbandonedIsStuck(w[n], acts[n], x);
    StuckAlong(w, acts, n + 1, m, k, x);
    if m < |acts| {
      RunStep(w, acts, m);
      RunInv(w, acts, m);
      StuckNext(w[m], acts[m], k, x);
      if !Frees(w[m], acts[m], k) { StuckPending(w[m + 1], k, x); }
    }
  }

  lemma KeyKept(s: World, a: Action, x: RoomId)
    requires Inv(s) && Enabled(s, a) && x < |s.calls|
    ensures x < |Next(s, a).calls| && Next(s, a).calls[x].key == s.calls[x].key
  {
    if a.Advance? {
      assert CallOk(s.db, s.targets, a.x, s.calls[a.x]);
      StepCallLocal(s.db, a.x, s.calls[a.x], a.reply);
    }
    hide StepCall, StepBoot, StepDisable, Inv, Confined;
  }

  lemma AbandonedIsStuck(s: World, a: Action, x: RoomId)
    requires Inv(s) && Enabled(s, a) && Abandons(s, a, x) && KeyOk(Next(s, a), s.calls[x].key)
    ensures Stuck(Next(s, a), s.calls[x].key, x)
  {
    var t, k := Next(s, a), s.calls[x].key;
    KeyKept(s, a, x);
    hide Inv;
    forall y | 0 <= y < |t.calls| && t.calls[y].key == k && InFlight(t.calls[y].pc) ensures Asking(t.calls[y]) {
      assert CallKeyOk(t.db, y, t.calls[y]);
    }
    hide Next, Enabled;
  }
}
