/** What an idempotency key guarantees. Two independent results:
    - as long as the record of a key has never been in error, at most one call with that key
      passes the INSERT OR IGNORE gate, however the calls overlap, and every success with
      that key is its response;
    - as long as no two calls with that key are about to reset its record at the same time,
      all responses are the same and at most one room of that key is active, whatever fails
      and however the calls overlap otherwise.
    The second hypothesis is exact: TwoResetsTwoRooms in ProvisioningRetries. */
module ProvisioningIdempotence {
  import opened Outcomes
  import opened RoomTables
  import opened Provisioning
  import opened ProvisioningInvariant

  // ---------------------------------------------------------------- the gate

  predicate GateCallOk(ops: map<IdemKey, Operation>, errored: set<IdemKey>, x: RoomId, c: Call) {
    && (c.key != NO_KEY && PastGate(c) ==> c.gated)
    && (c.pc.Reset? ==> c.retry) && (c.retry ==> c.key in errored)
    && (c.gated && c.key !in errored ==> c.key in ops && ops[c.key].roomId == x)
  }

  ghost predicate GateOk(s: World) {
    && (forall x :: 0 <= x < |s.calls| ==> GateCallOk(s.db.tables.ops, s.errored, x, s.calls[x]))
    && ErrorKeys(s.db.tables.ops) <= s.errored
  }

  lemma OwnGateStep(db: Db, errored: set<IdemKey>, x: RoomId, c: Call, m: CallStep)
    requires InFlight(c.pc) && Honest(db, x, c, m) && (BeforeRow(c.pc) ==> !c.saved)
    requires GateCallOk(db.tables.ops, errored, x, c) && ErrorKeys(db.tables.ops) <= errored
    ensures GateCallOk(m.db.tables.ops, errored + ErrorKeys(m.db.tables.ops), x, m.call)
  {
    if c.key in db.tables.ops && db.tables.ops[c.key].status.Error? { assert c.key in ErrorKeys(db.tables.ops); }
  }

  lemma OtherGateStep(db: Db, errored: set<IdemKey>, x: RoomId, c: Call, m: CallStep, y: RoomId, e: Call)
    requires InFlight(c.pc) && Honest(db, x, c, m) && x != y
    requires GateCallOk(db.tables.ops, errored, x, c) && GateCallOk(db.tables.ops, errored, y, e)
    ensures GateCallOk(m.db.tables.ops, errored + ErrorKeys(m.db.tables.ops), y, e)
  {
  }

  lemma GateNext(s: World, a: Action)
    requires Inv(s) && GateOk(s) && Enabled(s, a)
    ensures GateOk(Next(s, a))
  {
    var s' := Next(s, a);
    match a
    case Advance(x, r) =>
      var c, m := s.calls[x], StepCall(s.db, x, s.calls[x], r);
      assert CallOk(s.db, s.targets, x, c);
      StepCallLocal(s.db, x, c, r);
      OwnGateStep(s.db, s.errored, x, c, m);
      hide StepCall, Inv, GateCallOk, Honest;
      forall y | 0 <= y < |s.calls| && y != x ensures GateCallOk(s'.db.tables.ops, s'.errored, y, s.calls[y]) {
        OtherGateStep(s.db, s.errored, x, c, m, y, s.calls[y]);
      }
    case AdvanceDisable(i, fate, hit) =>
      assert DisableOk(s.db, s.targets, s.disables[i]);
      DisableLocal(s.db, s.targets, s.disables[i], fate, hit);
      hide StepDisable, Inv;
    case Repair(fate) =>
      BootLocal(s.db, s.phase.boot, fate);
      hide StepBoot, Inv;
    case _ => hide Inv;
  }

  lemma {:induction false} GateAlong(w: seq<World>, acts: seq<Action>, n: nat)
    requires IsRun(w, acts) && Init(w[0]) && n < |w|
    ensures GateOk(w[n])
  {
    if n > 0 {
      GateAlong(w, acts, n - 1);
      RunInv(w, acts, n - 1);
      GateNext(w[n - 1], acts[n - 1]);
    }
  }

  /** However the calls with key k overlap, as long as its record has never been in error:
      one call at most gets past the gate, and every other finished call with that key
      reports "in progress", a failed statement before the gate, or the very response of
      the call that got past. */
  lemma OneCallPerFreshKey(w: seq<World>, acts: seq<Action>, n: nat, x: RoomId, y: RoomId)
    requires IsRun(w, acts) && Init(w[0]) && n < |w| && x < |w[n].calls| && y < |w[n].calls| && x != y
    requires w[n].calls[x].key == w[n].calls[y].key != NO_KEY && w[n].calls[x].key !in w[n].errored
    requires w[n].calls[x].gated
    ensures !w[n].calls[y].gated
    ensures w[n].calls[y].pc.Finished? ==>
      var result := w[n].calls[y].pc.result;
      || result.InProgress? || result == Failed(Early)
      || (result == Success(Own(x, w[n].calls[x])) && w[n].calls[x].saved)
  {
    GateAlong(w, acts, n);
    RunInv(w, acts, n);
    assert GateCallOk(w[n].db.tables.ops, w[n].errored, x, w[n].calls[x]);
    assert GateCallOk(w[n].db.tables.ops, w[n].errored, y, w[n].calls[y]);
    assert ResultOk(w[n].calls, y);
    if w[n].calls[y].pc.Finished? && w[n].calls[y].pc.result.Success? {
      var z := w[n].calls[y].pc.result.response.roomId;
      assert GateCallOk(w[n].db.tables.ops, w[n].errored, z, w[n].calls[z]);
    }
  }

  /** As long as the record of a key has never been in error, every success with that key
      is the response of a call that passed the gate and whose save took effect. */
  lemma SuccessOnFreshKey(w: seq<World>, acts: seq<Action>, n: nat, y: RoomId, response: Response)
    requires IsRun(w, acts) && Init(w[0]) && n < |w| && y < |w[n].calls| && Returned(w[n].calls, y, response)
    requires w[n].calls[y].key != NO_KEY && w[n].calls[y].key !in w[n].errored
    ensures var x := response.roomId;
      && x < |w[n].calls| && w[n].calls[x].key == w[n].calls[y].key && w[n].calls[x].gated && w[n].calls[x].saved
      && response == Own(x, w[n].calls[x])
  {
    GateAlong(w, acts, n);
    RunInv(w, acts, n);
    assert ResultOk(w[n].calls, y);
    assert GateCallOk(w[n].db.tables.ops, w[n].errored, response.roomId, w[n].calls[response.roomId]);
  }

  // ---------------------------------------------------------------- calls of one key

  predicate PendingFor(ops: map<IdemKey, Operation>, key: IdemKey, x: RoomId) {
    key in ops && ops[key].roomId == x && ops[key].status.Creating?
  }

  predicate ActiveIn(db: Db, x: RoomId) { x in db.tables.rooms && db.tables.rooms[x].status.Active? }

  predicate Holding(pc: Pc) { InFlight(pc) && !pc.Lookup? && !pc.Reset? && !pc.Insert? }

  /** The record of the key names the call that is past the gate, is in error as long as a
      call waits to reset it, and names the one active room, the one saved response. */
  predicate CallKeyOk(db: Db, x: RoomId, c: Call) {
    var ops := db.tables.ops;
    && (ActiveIn(db, x) ==>
          c.key in ops && ops[c.key].roomId == x && (ops[c.key].status.Creating? || ops[c.key].status.Active?))
    && (c.saved ==> c.key in ops && ops[c.key].status.Active? && ops[c.key].response == Sealed(Own(x, c)))
    && (c.pc.Reset? ==> c.retry && c.key in ops && ops[c.key].status.Error?)
    && (c.pc.Insert? && c.retry ==> PendingFor(ops, c.key, x))
    && (c.pc.Lookup? ==> !c.retry)
    && (Holding(c.pc) ==> PendingFor(ops, c.key, x))
  }

  // Only the one call of x can make its row active, at its Activate.
  predicate NotYetActive(db: Db, x: RoomId, c: Call) {
    InFlight(c.pc) && !c.saved && (!c.pc.SaveResponse? ==> !ActiveIn(db, x))
  }

  lemma GateKeepsKey(db: Db, x: RoomId, c: Call, r: Reply)
    requires c.pc.Lookup? || c.pc.Reset? || c.pc.Insert? || c.pc.InsertRoom?
    requires c.key != NO_KEY && CallKeyOk(db, x, c) && NotYetActive(db, x, c)
    ensures var m := StepGate(db, x, c, r); CallKeyOk(m.db, x, m.call)
  {
    match c.pc { case Lookup => case Reset => case Insert => case _ => }
  }

  lemma MakeKeepsKey(db: Db, x: RoomId, c: Call, r: Reply)
    requires c.pc.FindTheGroup? || c.pc.MakeGroup? || c.pc.MakeKey? || c.pc.MakePolicy?
    requires c.key != NO_KEY && CallKeyOk(db, x, c) && NotYetActive(db, x, c)
    ensures var m := StepMake(db, x, c, r); CallKeyOk(m.db, x, m.call)
  {
    match c.pc { case FindTheGroup => case MakeGroup => case MakeKey => case _ => }
  }

  lemma RecordKeepsKey(db: Db, x: RoomId, c: Call, r: Reply)
    requires c.pc.RecordKey? || c.pc.RecordPolicy?
    requires c.key != NO_KEY && CallKeyOk(db, x, c) && NotYetActive(db, x, c)
    ensures var m := StepRecord(db, x, c, r); CallKeyOk(m.db, x, m.call)
  {
    match c.pc { case RecordKey => case _ => }
  }

  lemma CloseKeepsKey(db: Db, x: RoomId, c: Call, r: Reply)
    requires c.pc.Activate? || c.pc.SaveResponse?
    requires c.key != NO_KEY && CallKeyOk(db, x, c) && NotYetActive(db, x, c)
    ensures var m := StepClose(db, x, c, r); CallKeyOk(m.db, x, m.call)
  {
    match c.pc { case Activate => case _ => }
  }

  lemma UndoKeepsKey(db: Db, x: RoomId, c: Call, r: Reply)
    requires c.pc.DropPolicy? || c.pc.RevokeKey? || c.pc.DropGroup?
    requires c.key != NO_KEY && CallKeyOk(db, x, c) && NotYetActive(db, x, c)
    ensures var m := StepUndo(db, x, c, r); CallKeyOk(m.db, x, m.call)
  {
    match c.pc { case DropPolicy => case RevokeKey => case _ => }
  }

  lemma FailKeepsKey(db: Db, x: RoomId, c: Call, r: Reply)
    requires c.pc.FailRoom? || c.pc.FailOp?
    requires c.key != NO_KEY && CallKeyOk(db, x, c) && NotYetActive(db, x, c)
    ensures var m := StepFail(db, x, c, r); CallKeyOk(m.db, x, m.call)
  {
    match c.pc { case FailRoom => case _ => }
  }

  lemma OwnKeyStep(db: Db, x: RoomId, c: Call, r: Reply)
    requires c.key != NO_KEY && CallKeyOk(db, x, c) && NotYetActive(db, x, c)
    ensures var m := StepCall(db, x, c, r); CallKeyOk(m.db, x, m.call)
  {
    hide CallKeyOk, NotYetActive, StepGate, StepMake, StepRecord, StepClose, StepUndo, StepFail;
    assert InFlight(c.pc) by { InFlightNow(db, x, c); }
    match c.pc {
      case Lookup | Reset | Insert | InsertRoom => GateKeepsKey(db, x, c, r);
      case FindTheGroup | MakeGroup | MakeKey | MakePolicy => MakeKeepsKey(db, x, c, r);
      case RecordKey | RecordPolicy => RecordKeepsKey(db, x, c, r);
      case Activate | SaveResponse => CloseKeepsKey(db, x, c, r);
      case DropPolicy | RevokeKey | DropGroup => UndoKeepsKey(db, x, c, r);
      case FailRoom | FailOp => FailKeepsKey(db, x, c, r);
    }
  }

  lemma InFlightNow(db: Db, x: RoomId, c: Call)
    requires NotYetActive(db, x, c)
    ensures InFlight(c.pc)
  {
  }

  /** At most one call with key k has read an error and not yet reset the record. */
  ghost predicate OneReset(s: World, k: IdemKey) {
    forall x, y | 0 <= x < |s.calls| && 0 <= y < |s.calls| && s.calls[x].key == k && s.calls[y].key == k ::
      s.calls[x].pc.Reset? && s.calls[y].pc.Reset? ==> x == y
  }

  ghost predicate KeyOk(s: World, k: IdemKey) {
    && (forall x :: 0 <= x < |s.calls| && s.calls[x].key == k ==> CallKeyOk(s.db, x, s.calls[x]))
    && (s.phase.Repairing? && Working(s.phase.boot) && s.phase.boot.at.MarkOp? && s.phase.boot.todo[0].key == k ==>
          !ActiveIn(s.db, s.phase.boot.todo[0].roomId))
  }

  /** The other calls of the key do not care what this one does, unless both are about to
      reset the record. */
  lemma OtherKeyStep(db: Db, x: RoomId, c: Call, m: CallStep, y: RoomId, e: Call)
    requires InFlight(c.pc) && x != y && c.key == e.key && !(c.pc.Reset? && e.pc.Reset?)
    requires CallKeyOk(db, x, c) && CallKeyOk(db, y, e) && Honest(db, x, c, m)
    requires RowsConfined(db.tables, m.db.tables, x)
    requires !c.saved
    ensures CallKeyOk(m.db, y, e)
  {
  }

  lemma ElsewhereKeyStep(a: Db, b: Db, x: RoomId, y: RoomId, e: Call)
    requires CallKeyOk(a, y, e) && Confined(a, b, x) && x != y
    requires e.key in a.tables.ops <==> e.key in b.tables.ops
    requires e.key in a.tables.ops ==> b.tables.ops[e.key] == a.tables.ops[e.key]
    ensures CallKeyOk(b, y, e)
  {
  }

  lemma AdvanceKey(s: World, x: RoomId, r: Reply, k: IdemKey)
    requires Inv(s) && KeyOk(s, k) && k != NO_KEY && OneReset(s, k) && Enabled(s, Advance(x, r))
    ensures KeyOk(Next(s, Advance(x, r)), k)
  {
    var c, m, s' := s.calls[x], StepCall(s.db, x, s.calls[x], r), Next(s, Advance(x, r));
    assert CallOk(s.db, s.targets, x, c) && RowOk(s.db, s.targets, x, c);
    StepCallLocal(s.db, x, c, r);
    assert NotYetActive(s.db, x, c);
    if c.key == k { OwnKeyStep(s.db, x, c, r); }
    hide StepCall, Inv, CallKeyOk, Confined, NotYetActive;
    forall y | 0 <= y < |s.calls| && s.calls[y].key == k && y != x ensures CallKeyOk(m.db, y, s.calls[y]) {
      if c.key == k { OtherKeyStep(s.db, x, c, m, y, s.calls[y]); }
      else { ElsewhereKeyStep(s.db, m.db, x, y, s.calls[y]); }
    }
  }

  /** The record under repair is in status creating, so no room of its key is saved, and
      by MarkOp its room is no longer active. */
  lemma RepairKeyAt(s: World, fate: Fate, k: IdemKey, y: RoomId)
    requires Inv(s) && KeyOk(s, k) && k != NO_KEY && Enabled(s, Repair(fate)) && y < |s.calls| && s.calls[y].key == k
    ensures CallKeyOk(StepBoot(s.db, s.phase.boot, fate).db, y, s.calls[y])
  {
    var b, m, p := s.phase.boot, StepBoot(s.db, s.phase.boot, fate), s.phase.boot.todo[0];
    assert OpOk(s.calls, p.key, s.db.tables.ops[p.key]) && CallKeyOk(s.db, y, s.calls[y]) && BootOk(s.db, b);
    hide Inv, BootOk, OpOk, KeyOk;
    BootLocal(s.db, b, fate);
    BootToMarkOp(s.db, b, fate);
    hide StepBoot;
    if y != p.roomId && p.key != k { ElsewhereKeyStep(s.db, m.db, p.roomId, y, s.calls[y]); }
  }

  lemma RepairKey(s: World, fate: Fate, k: IdemKey)
    requires Inv(s) && KeyOk(s, k) && k != NO_KEY && Enabled(s, Repair(fate))
    ensures KeyOk(Next(s, Repair(fate)), k)
  {
    var b, m := s.phase.boot, StepBoot(s.db, s.phase.boot, fate);
    BootToMarkOp(s.db, b, fate);
    forall y | 0 <= y < |s.calls| && s.calls[y].key == k ensures CallKeyOk(m.db, y, s.calls[y]) {
      RepairKeyAt(s, fate, k, y);
    }
    hide StepBoot, Inv, CallKeyOk;
  }

  lemma BootToMarkOp(db: Db, b: Boot, fate: Fate)
    requires BootOk(db, b)
    ensures var m := StepBoot(db, b, fate);
      && (ActiveIn(m.db, b.todo[0].roomId) ==> ActiveIn(db, b.todo[0].roomId))
      && (m.boot.Reconciling? && m.boot.at.MarkOp? ==>
            !b.at.MarkOp? && m.boot.todo == b.todo && !ActiveIn(m.db, b.todo[0].roomId))
      && (!b.at.MarkOp? ==> m.db.tables.ops == db.tables.ops)
  {
    match b.at {
      case Fetch => case BootPolicy => case BootRevoke =>
      case BootKey => case BootGroup => case MarkRoom => case _ =>
    }
  }

  lemma DisableNeverActivates(db: Db, d: Disabling, fate: Fate, hit: Option<RoomId>, x: RoomId)
    requires !d.at.Closed? && (d.at.Find? && hit.Some? ==> hit.value in db.tables.rooms)
    requires ActiveIn(StepDisable(db, d, fate, hit).db, x)
    ensures ActiveIn(db, x)
  {
    match d.at { case Find => case Revoke => case Drop => case _ => }
  }

  lemma DisableKey(s: World, i: nat, fate: Fate, hit: Option<RoomId>, k: IdemKey)
    requires Inv(s) && KeyOk(s, k) && Enabled(s, AdvanceDisable(i, fate, hit))
    ensures KeyOk(Next(s, AdvanceDisable(i, fate, hit)), k)
  {
    var m := StepDisable(s.db, s.disables[i], fate, hit);
    assert DisableOk(s.db, s.targets, s.disables[i]);
    DisableLocal(s.db, s.targets, s.disables[i], fate, hit);
    forall y | 0 <= y < |s.calls| && s.calls[y].key == k ensures CallKeyOk(m.db, y, s.calls[y]) {
      if ActiveIn(m.db, y) { DisableNeverActivates(s.db, s.disables[i], fate, hit, y); }
    }
    hide StepDisable, Inv, CallKeyOk;
  }

  lemma KeyNext(s: World, a: Action, k: IdemKey)
    requires Inv(s) && KeyOk(s, k) && k != NO_KEY && OneReset(s, k) && Enabled(s, a)
    ensures KeyOk(Next(s, a), k)
  {
    match a
    case Advance(x, r) => AdvanceKey(s, x, r, k); hide Inv, Next, KeyOk;
    case AdvanceDisable(i, fate, hit) => DisableKey(s, i, fate, hit, k); hide Inv, Next, KeyOk;
    case Repair(fate) => RepairKey(s, fate, k); hide Inv, Next, KeyOk;
    case _ => ArriveKey(s, a, k); hide Inv, Next, KeyOk;
  }

  lemma ArriveKey(s: World, a: Action, k: IdemKey)
    requires Inv(s) && KeyOk(s, k) && Enabled(s, a) && k != NO_KEY
    requires !a.Advance? && !a.AdvanceDisable? && !a.Repair?
    ensures KeyOk(Next(s, a), k)
  {
    var s' := Next(s, a);
    forall y | 0 <= y < |s'.calls| && s'.calls[y].key == k ensures CallKeyOk(s'.db, y, s'.calls[y]) {
      if y < |s.calls| { assert CallKeyOk(s.db, y, s.calls[y]); }
    }
  }

  lemma {:induction false} KeyAlong(w: seq<World>, acts: seq<Action>, n: nat, k: IdemKey)
    requires IsRun(w, acts) && Init(w[0]) && n < |w| && k != NO_KEY
    requires forall i :: 0 <= i < n ==> OneReset(w[i], k)
    ensures KeyOk(w[n], k)
  {
    if n > 0 {
      KeyAlong(w, acts, n - 1, k);
      RunInv(w, acts, n - 1);
      KeyNext(w[n - 1], acts[n - 1], k);
    }
  }

  /** If no two calls with key k are ever about to reset its record at the same time, then,
      whatever fails, whatever crashes, however often Reconcile runs and however the calls
      overlap otherwise: all their successes return the same response, and at most one
      room created under the key is active. */
  lemma OneRoomPerKey(w: seq<World>, acts: seq<Action>, n: nat, k: IdemKey, x: RoomId, y: RoomId)
    requires IsRun(w, acts) && Init(w[0]) && n < |w| && k != NO_KEY
    requires forall i :: 0 <= i < n ==> OneReset(w[i], k)
    requires x < |w[n].calls| && y < |w[n].calls| && w[n].calls[x].key == w[n].calls[y].key == k
    ensures ActiveIn(w[n].db, x) && ActiveIn(w[n].db, y) ==> x == y
    ensures forall r1, r2 :: Returned(w[n].calls, x, r1) && Returned(w[n].calls, y, r2) ==> r1 == r2
  {
    KeyAlong(w, acts, n, k);
    RunInv(w, acts, n);
    assert CallKeyOk(w[n].db, x, w[n].calls[x]) && CallKeyOk(w[n].db, y, w[n].calls[y]);
    forall r1, r2 | Returned(w[n].calls, x, r1) && Returned(w[n].calls, y, r2) ensures r1 == r2 {
      assert ResultOk(w[n].calls, x) && ResultOk(w[n].calls, y);
      assert CallKeyOk(w[n].db, r1.roomId, w[n].calls[r1.roomId]);
      assert CallKeyOk(w[n].db, r2.roomId, w[n].calls[r2.roomId]);
    }
  }
}
