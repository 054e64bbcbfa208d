/** Safety of the provisioning saga over whole runs: any number of overlapping Create and
    Disable calls, lost replies, crashes, and a startup Reconcile that may itself fail.
    A room whose code was given out stays as it was until somebody disables it. */
module ProvisioningSafety {
  import opened Outcomes
  import opened RoomTables
  import opened Provisioning
  import opened ProvisioningInvariant

  predicate Joinable(s: World, x: RoomId) {
    x in s.db.tables.rooms && s.db.tables.rooms[x].status.Active?
  }

  predicate Saved(s: World, x: RoomId) { x < |s.calls| && s.calls[x].saved }

  /** Nothing of room x differs: neither its row nor any remote resource of its own. */
  ghost predicate Untouched(a: Db, b: Db, x: RoomId) {
    && (x in a.tables.rooms <==> x in b.tables.rooms)
    && (x in a.tables.rooms ==> b.tables.rooms[x] == a.tables.rooms[x])
    && (forall g :: 0 <= g < |a.remote.groups| && a.remote.groups[g].name == x ==>
          g < |b.remote.groups| && b.remote.groups[g] == a.remote.groups[g])
    && (forall n :: 0 <= n < |a.remote.keys| && a.remote.keys[n].room == x ==>
          n < |b.remote.keys| && b.remote.keys[n] == a.remote.keys[n])
    && (forall p :: 0 <= p < |a.remote.policies| && a.remote.policies[p].room == x ==>
          p < |b.remote.policies| && b.remote.policies[p] == a.remote.policies[p])
  }

  lemma ConfinedElsewhere(a: Db, b: Db, x: RoomId, y: RoomId)
    requires Confined(a, b, x) && x != y
    ensures Untouched(a, b, y)
  {
  }

  // ---------------------------------------------------------------- Reconcile

  /** No step of Reconcile changes a room whose final save took effect. */
  lemma ReconcileSpares(s: World, fate: Fate, x: RoomId)
    requires Inv(s) && Enabled(s, Repair(fate)) && Saved(s, x)
    ensures Untouched(s.db, Next(s, Repair(fate)).db, x)
  {
    var b := s.phase.boot;
    assert OpOk(s.calls, b.todo[0].key, s.db.tables.ops[b.todo[0].key]);
    BootLocal(s.db, b, fate);
    ConfinedElsewhere(s.db, StepBoot(s.db, b, fate).db, b.todo[0].roomId, x);
  }

  /** On every run, Reconcile leaves alone each room whose code was ever returned. */
  lemma ReconcileSparesReturnedRooms(w: seq<World>, acts: seq<Action>, n: nat, caller: RoomId, response: Response)
    requires IsRun(w, acts) && Init(w[0]) && n < |acts| && acts[n].Repair?
    requires Returned(w[n].calls, caller, response)
    ensures Untouched(w[n].db, w[n + 1].db, response.roomId)
  {
    RunInv(w, acts, n);
    assert ResultOk(w[n].calls, caller);
    ReconcileSpares(w[n], acts[n].fate, response.roomId);
  }

  // ---------------------------------------------------------------- a returned room stays

  /** The step that writes "disabled" into the row of room x. */
  predicate Disables(s: World, a: Action, x: RoomId) {
    a.AdvanceDisable? && a.fate.Applied() && a.i < |s.disables| && s.disables[a.i].at.Mark? && s.disables[a.i].room == x
  }

  lemma SavedCallStays(s: World, a: Action, x: RoomId)
    requires Inv(s) && Enabled(s, a) && Saved(s, x)
    ensures var s' := Next(s, a); x < |s'.calls| && s'.calls[x] == s.calls[x]
  {
    assert CallOk(s.db, s.targets, x, s.calls[x]);
    hide Inv, StepCall, StepBoot, StepDisable;
  }

  lemma SavedRowStays(s: World, a: Action, x: RoomId)
    requires Inv(s) && Enabled(s, a) && Saved(s, x)
    ensures var rows, rows' := s.db.tables.rooms, Next(s, a).db.tables.rooms;
      && x in rows && x in rows'
      && rows'[x] == if Disables(s, a, x) then rows[x].(status := Disabled) else rows[x]
  {
    assert CallOk(s.db, s.targets, x, s.calls[x]) && RowOk(s.db, s.targets, x, s.calls[x]);
    match a
    case Advance(y, r) =>
      assert CallOk(s.db, s.targets, y, s.calls[y]);
      StepCallLocal(s.db, y, s.calls[y], r);
      hide StepCall, Inv;
    case AdvanceDisable(i, fate, hit) =>
      assert DisableOk(s.db, s.targets, s.disables[i]);
      DisableWrites(s.db, s.disables[i], fate, hit, x);
      hide StepDisable, Inv;
    case Repair(fate) => ReconcileSpares(s, fate, x); hide StepBoot, Inv;
    case _ =>
  }

  lemma DisableWrites(db: Db, d: Disabling, fate: Fate, hit: Option<RoomId>, x: RoomId)
    requires !d.at.Closed? && x in db.tables.rooms
    requires d.at.Find? && hit.Some? ==> hit.value in db.tables.rooms
    ensures var rows' := StepDisable(db, d, fate, hit).db.tables.rooms;
      && x in rows'
      && rows'[x] == if d.at.Mark? && fate.Applied() && d.room == x
                     then db.tables.rooms[x].(status := Disabled) else db.tables.rooms[x]
  {
    match d.at { case Find => case Revoke => case Drop => case _ => }
  }

  lemma SavedRoomStep(s: World, a: Action, x: RoomId)
    requires Inv(s) && Enabled(s, a) && Saved(s, x)
    ensures Saved(Next(s, a), x) && Next(s, a).calls[x] == s.calls[x]
    ensures Joinable(Next(s, a), x) <==> Joinable(s, x) && !Disables(s, a, x)
  {
    SavedCallStays(s, a, x);
    SavedRowStays(s, a, x);
    hide Inv, Next;
  }

  lemma {:induction false} SavedRoomAlong(w: seq<World>, acts: seq<Action>, n: nat, m: nat, x: RoomId)
    requires IsRun(w, acts) && Init(w[0]) && n <= m < |w| && Saved(w[n], x)
    ensures Saved(w[m], x) && w[m].calls[x] == w[n].calls[x]
    ensures Joinable(w[m], x) <==> Joinable(w[n], x) && forall i :: n <= i < m ==> !Disables(w[i], acts[i], x)
  {
    hide Inv, Next, Enabled, Init, Disables, Joinable, IsRun, Saved;
    if n < m {
      RunStep(w, acts, m - 1);
      SavedRoomAlong(w, acts, n, m - 1, x);
      RunInv(w, acts, m - 1);
      SavedRoomStep(w[m - 1], acts[m - 1], x);
    }
  }

  /** From the moment a response is returned, its room is joinable exactly until a
      Disable writes its row, through every later call, crash and Reconcile; its row
      names a live group, key and policy of its own, and the key and policy can only
      have been withdrawn by a Disable of that very room. */
  lemma ReturnedRoomStays(w: seq<World>, acts: seq<Action>, n: nat, m: nat, caller: RoomId, response: Response)
    requires IsRun(w, acts) && Init(w[0]) && n <= m < |w| && Returned(w[n].calls, caller, response)
    ensures var x := response.roomId;
      && (Joinable(w[m], x) <==> Joinable(w[n], x) && forall i :: n <= i < m ==> !Disables(w[i], acts[i], x))
      && x < |w[m].calls| && Standing(w[m].db, w[m].targets, x, w[m].calls[x])
      && response == Own(x, w[m].calls[x])
  {
    RunInv(w, acts, n);
    assert ResultOk(w[n].calls, caller);
    var x := response.roomId;
    SavedRoomAlong(w, acts, n, m, x);
    RunInv(w, acts, m);
    assert CallOk(w[m].db, w[m].targets, x, w[m].calls[x]) && RowOk(w[m].db, w[m].targets, x, w[m].calls[x]);
  }

  // ---------------------------------------------------------------- one joinable interval

  /** The one call that can activate room x has done so or never will. */
  predicate PastActivation(s: World, x: RoomId) {
    x < |s.calls| && (s.calls[x].pc.SaveResponse? || !InFlight(s.calls[x].pc))
  }

  lemma RetiredAdvance(s: World, y: RoomId, r: Reply, x: RoomId)
    requires Inv(s) && Enabled(s, Advance(y, r)) && PastActivation(s, x)
    ensures var t := Next(s, Advance(y, r)); PastActivation(t, x) && (!Joinable(s, x) ==> !Joinable(t, x))
  {
    assert CallOk(s.db, s.targets, x, s.calls[x]) && CallOk(s.db, s.targets, y, s.calls[y]);
    StepCallLocal(s.db, y, s.calls[y], r);
    if y == x { SavingLeavesRows(s.db, x, s.calls[x], r); }
    hide StepCall, Inv, CallOk;
  }

  lemma RetiredRepair(s: World, fate: Fate, x: RoomId)
    requires Inv(s) && Enabled(s, Repair(fate)) && PastActivation(s, x)
    ensures var t := Next(s, Repair(fate)); PastActivation(t, x) && (!Joinable(s, x) ==> !Joinable(t, x))
  {
    assert BootOk(s.db, s.phase.boot);
    hide Inv, BootOk;
    if !Joinable(s, x) { BootNeverActivates(s.db, s.phase.boot, fate, x); }
    hide StepBoot;
  }

  lemma RetiredDisable(s: World, i: nat, fate: Fate, hit: Option<RoomId>, x: RoomId)
    requires Inv(s) && Enabled(s, AdvanceDisable(i, fate, hit)) && PastActivation(s, x)
    ensures var t := Next(s, AdvanceDisable(i, fate, hit));
      PastActivation(t, x) && (!Joinable(s, x) ==> !Joinable(t, x))
  {
    assert DisableOk(s.db, s.targets, s.disables[i]);
    hide Inv;
    DisableLocal(s.db, s.targets, s.disables[i], fate, hit);
    if x in s.db.tables.rooms { DisableWrites(s.db, s.disables[i], fate, hit, x); }
    hide StepDisable;
  }

  lemma RetiredStays(s: World, a: Action, x: RoomId)
    requires Inv(s) && Enabled(s, a) && PastActivation(s, x)
    ensures PastActivation(Next(s, a), x) && (!Joinable(s, x) ==> !Joinable(Next(s, a), x))
  {
    match a
    case Advance(y, r) => RetiredAdvance(s, y, r, x); hide *;
    case AdvanceDisable(i, fate, hit) => RetiredDisable(s, i, fate, hit, x); hide *;
    case Repair(fate) => RetiredRepair(s, fate, x); hide *;
    case _ => hide Inv, StepCall, StepBoot, StepDisable;
  }

  lemma SavingLeavesRows(db: Db, x: RoomId, c: Call, r: Reply)
    requires c.pc.SaveResponse?
    ensures var m := StepCall(db, x, c, r); m.db.tables.rooms == db.tables.rooms && m.call.pc.Finished?
  {
    hide StepGate, StepMake, StepRecord, StepUndo, StepFail;
  }

  lemma BootNeverActivates(db: Db, b: Boot, fate: Fate, x: RoomId)
    requires BootOk(db, b) && (x in db.tables.rooms ==> !db.tables.rooms[x].status.Active?)
    ensures var rows' := StepBoot(db, b, fate).db.tables.rooms; x in rows' ==> !rows'[x].status.Active?
  {
    match b.at {
      case Fetch => case BootPolicy => case BootRevoke =>
      case BootKey => case BootGroup => case MarkRoom => case _ =>
    }
  }

  lemma {:induction false} RetiredAlong(w: seq<World>, acts: seq<Action>, n: nat, m: nat, x: RoomId)
    requires IsRun(w, acts) && Init(w[0]) && n <= m < |w| && PastActivation(w[n], x)
    ensures PastActivation(w[m], x) && (!Joinable(w[n], x) ==> !Joinable(w[m], x))
  {
    hide Inv, Next, Enabled, Init, Joinable, IsRun, PastActivation;
    if n < m {
      RunStep(w, acts, m - 1);
      RetiredAlong(w, acts, n, m - 1, x);
      RunInv(w, acts, m - 1);
      RetiredStays(w[m - 1], acts[m - 1], x);
    }
  }

  /** A room that was joinable and is not joinable any more never is again. */
  lemma JoinableOnce(w: seq<World>, acts: seq<Action>, i: nat, j: nat, k: nat, x: RoomId)
    requires IsRun(w, acts) && Init(w[0]) && i <= j <= k < |w|
    requires Joinable(w[i], x) && !Joinable(w[j], x)
    ensures !Joinable(w[k], x)
  {
    RunInv(w, acts, i);
    assert RowOk(w[i].db, w[i].targets, x, w[i].calls[x]);
    RetiredAlong(w, acts, i, j, x);
    RetiredAlong(w, acts, j, k, x);
  }

  // ---------------------------------------------------------------- Create, then Join

  /** Join of any active room's code finds that room and opens its setup key. */
  lemma ActiveRoomAdmits(s: World, x: RoomId, hit: Option<RoomId>)
    requires Inv(s) && Joinable(s, x) && Answers(s.db.tables, s.calls[x].code, hit)
    ensures hit == Some(x) && JoinRow(x, s.db.tables.rooms[x]) == Some(Own(x, s.calls[x]).(code := None))
  {
    assert RowOk(s.db, s.targets, x, s.calls[x]);
  }

  /** Join answers exactly if its lookup is heard and there is an active room with that code. */
  lemma JoinAnswersIff(s: World, code: Code, hit: Option<RoomId>)
    requires Inv(s) && Answers(s.db.tables, code, hit)
    ensures hit.Some? && JoinRow(hit.value, s.db.tables.rooms[hit.value]).Some? <==>
              exists x: RoomId :: Joinable(s, x) && s.db.tables.rooms[x].codeHash == Digest(code)
  {
    if hit.Some? && JoinRow(hit.value, s.db.tables.rooms[hit.value]).Some? { assert Joinable(s, hit.value); }
    if exists x: RoomId :: Joinable(s, x) && s.db.tables.rooms[x].codeHash == Digest(code) {
      var x: RoomId :| Joinable(s, x) && s.db.tables.rooms[x].codeHash == Digest(code);
      assert RowOk(s.db, s.targets, x, s.calls[x]);
      assert hit == Some(x);
    }
  }

  /** As long as the room of a returned response is active, Join of the returned code
      answers with the same room id, management URL and setup key. */
  lemma CreateThenJoin(w: seq<World>, acts: seq<Action>, n: nat, m: nat, caller: RoomId, response: Response,
                       hit: Option<RoomId>)
    requires IsRun(w, acts) && Init(w[0]) && n <= m < |w| && Returned(w[n].calls, caller, response)
    requires Joinable(w[m], response.roomId)
    requires response.code.Some? ==> Answers(w[m].db.tables, response.code.value, hit)
    ensures response.code.Some? && hit == Some(response.roomId)
    ensures JoinRow(response.roomId, w[m].db.tables.rooms[response.roomId]) == Some(response.(code := None))
  {
    ReturnedRoomStays(w, acts, n, m, caller, response);
    RunInv(w, acts, m);
    ActiveRoomAdmits(w[m], response.roomId, hit);
  }

  // ---------------------------------------------------------------- replaying a record

  /** Looking up a finished record never fails to open it, and hands out the response of
      the call with the same key whose save took effect. */
  lemma ReplayOpens(s: World, x: RoomId, reply: Reply)
    requires Inv(s) && Enabled(s, Advance(x, reply)) && s.calls[x].pc.Lookup? && reply.fate.Done?
    requires s.calls[x].key in s.db.tables.ops && s.db.tables.ops[s.calls[x].key].status.Active?
    ensures exists response ::
              Returned(Next(s, Advance(x, reply)).calls, x, response) && Issued(s.calls, s.calls[x].key, response)
  {
    var op := s.db.tables.ops[s.calls[x].key];
    assert OpOk(s.calls, s.calls[x].key, op);
    assert Returned(Next(s, Advance(x, reply)).calls, x, op.response.clear);
  }
}
