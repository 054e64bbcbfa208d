/** What a Disable achieves when it reports success, when it does, and what that means for a
    room whose code was given out. */
module DisableAnswers {
  import opened Outcomes
  import opened RoomTables
  import opened NetBirdState
  import opened Provisioning
  import opened ProvisioningInvariant
  import opened ProvisioningSafety
  import opened ProvisioningResources
  import opened CallTraces

  predicate KeyDown(rm: Remote, id: Option<nat>) { id.Some? ==> rm.HasKey(id) && !rm.keys[id.value].state.Valid? }

  predicate PolicyDown(rm: Remote, id: Option<nat>) { id.Some? ==> rm.HasPolicy(id) && !rm.policies[id.value].live }

  // ---------------------------------------------------------------- nothing comes back

  /** A key that is not valid and a policy that is not live stay so. */
  predicate NoRevival(a: Remote, b: Remote) {
    && |a.keys| <= |b.keys| && |a.policies| <= |b.policies|
    && (forall n :: 0 <= n < |a.keys| && !a.keys[n].state.Valid? ==> !b.keys[n].state.Valid?)
    && (forall p :: 0 <= p < |a.policies| && !a.policies[p].live ==> !b.policies[p].live)
  }

  lemma MakeRevivesNone(db: Db, x: RoomId, c: Call, r: Reply)
    requires c.pc.FindTheGroup? || c.pc.MakeGroup? || c.pc.MakeKey? || c.pc.MakePolicy?
    ensures NoRevival(db.remote, StepMake(db, x, c, r).db.remote)
  {
    match c.pc { case FindTheGroup => case MakeGroup => case MakeKey => case _ => }
  }

  lemma UndoRevivesNone(db: Db, x: RoomId, c: Call, r: Reply)
    requires c.pc.DropPolicy? || c.pc.RevokeKey? || c.pc.DropGroup?
    ensures NoRevival(db.remote, StepUndo(db, x, c, r).db.remote)
  {
    match c.pc { case DropPolicy => case RevokeKey => case _ => }
  }

  lemma TablesOnly(db: Db, x: RoomId, c: Call, r: Reply)
    requires InFlight(c.pc) && (BeforeRow(c.pc) || c.pc.RecordKey? || c.pc.RecordPolicy? || c.pc.Activate?
                                || c.pc.SaveResponse? || c.pc.FailRoom? || c.pc.FailOp?)
    ensures StepCall(db, x, c, r).db.remote == db.remote
  {
    hide StepMake, StepUndo;
  }

  lemma CallRevivesNone(db: Db, x: RoomId, c: Call, r: Reply)
    requires InFlight(c.pc)
    ensures NoRevival(db.remote, StepCall(db, x, c, r).db.remote)
  {
    match c.pc
    case FindTheGroup | MakeGroup | MakeKey | MakePolicy =>
      MakeRevivesNone(db, x, c, r); hide StepMake, StepGate, StepRecord, StepClose, StepUndo, StepFail;
    case DropPolicy | RevokeKey | DropGroup =>
      UndoRevivesNone(db, x, c, r); hide StepMake, StepGate, StepRecord, StepClose, StepUndo, StepFail;
    case _ => TablesOnly(db, x, c, r); hide StepCall;
  }

  lemma NextRevivesNone(s: World, a: Action)
    requires Inv(s) && Enabled(s, a)
    ensures NoRevival(s.db.remote, Next(s, a).db.remote)
  {
    match a
    case Advance(x, r) => CallRevivesNone(s.db, x, s.calls[x], r); hide StepCall, Inv;
    case AdvanceDisable(i, fate, hit) => DisableDies(s.db, s.disables[i], fate, hit); hide StepDisable, Inv;
    case Repair(fate) =>
      assert BootOk(s.db, s.phase.boot);
      BootDies(s.db, s.phase.boot, fate);
      hide StepBoot, Inv, BootOk;
    case _ => hide Inv;
  }

  // ---------------------------------------------------------------- how far a Disable is

  predicate Past(d: Disabling) { d.at.Revoke? || d.at.Drop? || d.at.Mark? }

  /** The room it is at has its code; what it has passed is withdrawn. */
  predicate FarAs(db: Db, d: Disabling) {
    && (d.at.Find? ==> d.keyId.None? && d.policyId.None?)
    && (Past(d) ==> d.room in db.tables.rooms && db.tables.rooms[d.room].codeHash == Digest(d.code))
    && (d.at.Drop? || d.at.Mark? || d.at == Closed(true) ==> KeyDown(db.remote, d.keyId))
    && (d.at.Mark? || d.at == Closed(true) ==> PolicyDown(db.remote, d.policyId))
  }

  ghost predicate AllFarAs(s: World) { forall i :: 0 <= i < |s.disables| ==> FarAs(s.db, s.disables[i]) }

  predicate HasDisabled(tables: Tables, code: Code, x: RoomId) {
    x in tables.rooms && tables.rooms[x].codeHash == Digest(code) && tables.rooms[x].status.Disabled?
  }

  // The room of its code, as far as it knows.
  function Target(d: Disabling, hit: Option<RoomId>): RoomId {
    if d.at.Find? then if hit.Some? then hit.value else 0 else d.room
  }

  lemma OwnFarAs(db: Db, targets: set<RoomId>, d: Disabling, fate: Fate, hit: Option<RoomId>)
    requires !d.at.Closed? && DisableOk(db, targets, d) && FarAs(db, d)
    requires d.at.Find? ==> Answers(db.tables, d.code, hit)
    ensures var m := StepDisable(db, d, fate, hit);
      FarAs(m.db, m.d) && (m.d.at == Closed(true) ==> HasDisabled(m.db.tables, d.code, Target(d, hit)))
  {
    match d.at { case Find => case Revoke => case Drop => case _ => }
  }

  lemma OtherFarAs(a: Db, b: Db, d: Disabling)
    requires FarAs(a, d) && NoRevival(a.remote, b.remote)
    requires forall y :: y in a.tables.rooms ==>
               y in b.tables.rooms && b.tables.rooms[y].codeHash == a.tables.rooms[y].codeHash
    ensures FarAs(b, d)
  {
  }

  lemma RowsKeepCodes(s: World, a: Action)
    requires Inv(s) && Enabled(s, a)
    ensures forall y :: y in s.db.tables.rooms ==>
              && y in Next(s, a).db.tables.rooms
              && Next(s, a).db.tables.rooms[y].codeHash == s.db.tables.rooms[y].codeHash
  {
    match a
    case Advance(x, r) =>
      assert CallOk(s.db, s.targets, x, s.calls[x]);
      StepCallLocal(s.db, x, s.calls[x], r);
      hide StepCall, Inv, Honest;
    case AdvanceDisable(i, fate, hit) =>
      assert DisableOk(s.db, s.targets, s.disables[i]);
      DisableLocal(s.db, s.targets, s.disables[i], fate, hit);
      hide StepDisable, Inv;
    case Repair(fate) =>
      assert BootOk(s.db, s.phase.boot);
      BootLocal(s.db, s.phase.boot, fate);
      hide StepBoot, Inv, BootOk;
    case _ => hide Inv;
  }

  lemma FarAsNext(s: World, a: Action)
    requires Inv(s) && AllFarAs(s) && Enabled(s, a)
    ensures AllFarAs(Next(s, a))
  {
    var t := Next(s, a);
    NextRevivesNone(s, a);
    RowsKeepCodes(s, a);
    forall i | 0 <= i < |t.disables| ensures FarAs(t.db, t.disables[i]) {
      if i < |s.disables| { OneFarAs(s, a, i); }
    }
    hide Inv, NoRevival, StepCall, StepBoot, StepDisable, DropDisable;
  }

  lemma OneFarAs(s: World, a: Action, i: nat)
    requires Inv(s) && AllFarAs(s) && Enabled(s, a) && i < |s.disables|
    ensures i < |Next(s, a).disables| && FarAs(Next(s, a).db, Next(s, a).disables[i])
  {
    var t := Next(s, a);
    NextRevivesNone(s, a);
    RowsKeepCodes(s, a);
    OtherFarAs(s.db, t.db, s.disables[i]);
    if a.AdvanceDisable? && a.i == i {
      assert DisableOk(s.db, s.targets, s.disables[i]);
      OwnFarAs(s.db, s.targets, s.disables[i], a.fate, a.hit);
    }
    hide Inv, NoRevival, StepCall, StepBoot, StepDisable;
  }

  lemma {:induction false} FarAsAlong(w: seq<World>, acts: seq<Action>, n: nat)
    requires IsRun(w, acts) && Init(w[0]) && n < |w|
    ensures AllFarAs(w[n])
  {
    hide Inv, Next, Enabled, IsRun, AllFarAs;
    if n > 0 {
      RunStep(w, acts, n - 1);
      FarAsAlong(w, acts, n - 1);
      RunInv(w, acts, n - 1);
      FarAsNext(w[n - 1], acts[n - 1]);
    } else {
      assert AllFarAs(w[0]) by { NoneYet(w[0]); }
    }
  }

  lemma NoneYet(s: World)
    requires Init(s)
    ensures AllFarAs(s)
  {
  }

  // ---------------------------------------------------------------- what success means

  /** Disable i is told ok in this step. */
  predicate Answered(s: World, a: Action, t: World, i: nat) {
    a.AdvanceDisable? && a.i == i && i < |t.disables| && t.disables[i].at == Closed(true)
  }

  // What a Disable has found it goes on with.
  predicate SameTarget(d: Disabling, e: Disabling) {
    && !e.at.Find? && e.code == d.code && e.room == d.room && e.keyId == d.keyId && e.policyId == d.policyId
    && (d.at.Closed? ==> e.at.Closed?)
  }

  lemma TargetStep(s: World, a: Action, i: nat)
    requires Enabled(s, a) && i < |s.disables| && !s.disables[i].at.Find?
    ensures i < |Next(s, a).disables| && SameTarget(s.disables[i], Next(s, a).disables[i])
  {
    hide StepCall, StepBoot;
  }

  lemma {:induction false} TargetAlong(w: seq<World>, acts: seq<Action>, n: nat, m: nat, i: nat)
    requires IsRun(w, acts) && n <= m < |w| && i < |w[n].disables| && !w[n].disables[i].at.Find?
    ensures i < |w[m].disables| && SameTarget(w[n].disables[i], w[m].disables[i])
  {
    hide Next, Enabled, IsRun;
    if n < m {
      RunStep(w, acts, m - 1);
      TargetAlong(w, acts, n, m - 1, i);
      TargetStep(w[m - 1], acts[m - 1], i);
    }
  }

  // A call of Disable i whose lookup finds room x.
  predicate Looks(a: Action, i: nat, x: RoomId) { a.AdvanceDisable? && a.i == i && a.hit == Some(x) }

  // What the lookup of a Disable leads to.
  lemma FindStep(s: World, a: Action, i: nat, x: RoomId)
    requires Enabled(s, a) && Looks(a, i, x) && s.disables[i].at.Find?
    ensures var t, row := Next(s, a), s.db.tables.rooms[x];
      && x in s.db.tables.rooms && t.db == s.db && i < |t.disables| && t.disables[i].code == s.disables[i].code
      && (t.disables[i].at == Closed(true) ==> row.status.Disabled?)
      && (!t.disables[i].at.Closed? ==>
            t.disables[i].room == x && t.disables[i].keyId == row.setupKeyId && t.disables[i].policyId == row.policyId)
      && !t.disables[i].at.Find?
  {
  }

  /** On every run, when a Disable is told ok, the room it found is disabled at that moment; and
      unless it was disabled already, the setup key that its row named is not valid any more
      and the policy it named is gone. */
  lemma DisableSucceeds(w: seq<World>, acts: seq<Action>, f: nat, n: nat, i: nat, x: RoomId)
    requires IsRun(w, acts) && Init(w[0]) && f <= n < |acts| && i < |w[f].disables| && w[f].disables[i].at.Find?
    requires Looks(acts[f], i, x) && Answered(w[n], acts[n], w[n + 1], i)
    ensures HasDisabled(w[n + 1].db.tables, w[f].disables[i].code, x) && x in w[f].db.tables.rooms
    ensures var row := w[f].db.tables.rooms[x];
      || row.status.Disabled?
      || (KeyDown(w[n + 1].db.remote, row.setupKeyId) && PolicyDown(w[n + 1].db.remote, row.policyId))
  {
    assert |w| == |acts| + 1;
    hide IsRun, Init, Inv, Next, Enabled, FarAs, KeyDown, PolicyDown, HasDisabled;
    RunStep(w, acts, f);
    FindStep(w[f], acts[f], i, x);
    RunStep(w, acts, n);
    StillOpen(w[n], acts[n], i);
    RunInv(w, acts, n);
    FarAsAlong(w, acts, n);
    AnswerMeans(w[n], acts[n], i);
    if f < n {
      TargetAlong(w, acts, f + 1, n, i);
      TargetAlong(w, acts, f + 1, n + 1, i);
      assert w[n].disables[i].room == x;
    }
  }

  lemma StillOpen(s: World, a: Action, i: nat)
    requires Enabled(s, a) && a.AdvanceDisable? && a.i == i
    ensures i < |s.disables| && !s.disables[i].at.Closed?
  {
  }

  lemma AnswerMeans(s: World, a: Action, i: nat)
    requires Inv(s) && AllFarAs(s) && Enabled(s, a) && Answered(s, a, Next(s, a), i)
    ensures var d, t := s.disables[i], Next(s, a);
      && HasDisabled(t.db.tables, d.code, Target(d, a.hit))
      && KeyDown(t.db.remote, t.disables[i].keyId) && PolicyDown(t.db.remote, t.disables[i].policyId)
  {
    assert DisableOk(s.db, s.targets, s.disables[i]);
    OwnFarAs(s.db, s.targets, s.disables[i], a.fate, a.hit);
    hide Inv, StepDisable;
  }

  // ---------------------------------------------------------------- a room whose code was returned

  // A call of a Disable of the code of room x, on the way from s to t.
  predicate OfItsCode(s: World, a: Action, t: World, x: RoomId) {
    && a.AdvanceDisable? && a.i < |s.disables| && a.i < |t.disables| && x < |s.calls|
    && s.disables[a.i].code == s.calls[x].code
  }

  /** A Disable of the code of room x is told ok. */
  predicate ToldOk(s: World, a: Action, t: World, x: RoomId) {
    OfItsCode(s, a, t, x) && t.disables[a.i].at == Closed(true)
  }

  /** Its last statement takes effect, and it is told of an error. */
  predicate DoneUnheard(s: World, a: Action, t: World, x: RoomId) {
    OfItsCode(s, a, t, x) && a.fate.Lost? && s.disables[a.i].at.Mark? && t.disables[a.i].at == Closed(false)
  }

  lemma DisablesIff(s: World, a: Action, x: RoomId)
    requires Inv(s) && AllFarAs(s) && Enabled(s, a) && x < |s.calls| && Joinable(s, x)
    ensures Disables(s, a, x) <==> ToldOk(s, a, Next(s, a), x) || DoneUnheard(s, a, Next(s, a), x)
  {
    assert RowOk(s.db, s.targets, x, s.calls[x]);
    if a.AdvanceDisable? {
      var d := s.disables[a.i];
      assert FarAs(s.db, d);
      StepOutcome(s.db, d, a.fate, a.hit);
      hide StepDisable;
    }
    hide CallsOk, DisablesOk, OpsOk, ResultsOk, PhaseOk, RowOk;
  }

  lemma StepOutcome(db: Db, d: Disabling, fate: Fate, hit: Option<RoomId>)
    requires !d.at.Closed? && (d.at.Find? && hit.Some? ==> hit.value in db.tables.rooms)
    ensures var e := StepDisable(db, d, fate, hit).d;
      && (e.at == Closed(true) <==>
            fate.Done? && (d.at.Mark? || (d.at.Find? && hit.Some? && db.tables.rooms[hit.value].status.Disabled?)))
      && (d.at.Mark? && !fate.Done? ==> e.at == Closed(false))
  {
    match d.at { case Find => case Revoke => case Drop => case _ => }
  }

  lemma {:induction false} JoinableAlong(w: seq<World>, acts: seq<Action>, n: nat, m: nat, x: RoomId)
    requires IsRun(w, acts) && Init(w[0]) && n <= m < |w| && Saved(w[n], x)
    ensures Saved(w[m], x)
    ensures Joinable(w[m], x) <==>
              && Joinable(w[n], x)
              && forall i :: n <= i < m ==>
                   !ToldOk(w[i], acts[i], w[i + 1], x) && !DoneUnheard(w[i], acts[i], w[i + 1], x)
  {
    hide Inv, Next, Enabled, Init, Disables, Joinable, IsRun, Saved, AllFarAs, ToldOk, DoneUnheard;
    if n < m {
      RunStep(w, acts, m - 1);
      JoinableAlong(w, acts, n, m - 1, x);
      RunInv(w, acts, m - 1);
      FarAsAlong(w, acts, m - 1);
      SavedRoomStep(w[m - 1], acts[m - 1], x);
      if Joinable(w[m - 1], x) {
        SavedCalls(w[m - 1], x);
        DisablesIff(w[m - 1], acts[m - 1], x);
      }
    }
  }

  lemma SavedCalls(s: World, x: RoomId)
    requires Saved(s, x)
    ensures x < |s.calls|
  {
  }

  /** A room whose code was returned is joinable exactly until a Disable of its code is told
      ok, or its last statement takes effect and it is not told. */
  lemma JoinableUntilDisabled(w: seq<World>, acts: seq<Action>, n: nat, m: nat, caller: RoomId, response: Response)
    requires IsRun(w, acts) && Init(w[0]) && n <= m < |w| && Returned(w[n].calls, caller, response)
    ensures var x := response.roomId;
      Joinable(w[m], x) <==>
        && Joinable(w[n], x)
        && forall i :: n <= i < m ==> !ToldOk(w[i], acts[i], w[i + 1], x) && !DoneUnheard(w[i], acts[i], w[i + 1], x)
  {
    RunInv(w, acts, n);
    assert ResultOk(w[n].calls, caller);
    JoinableAlong(w, acts, n, m, response.roomId);
    hide IsRun, Init, Inv, Joinable, ToldOk, DoneUnheard;
  }

  // ---------------------------------------------------------------- when it succeeds

  function NewDisable(code: Code): Disabling { Disabling(code, Find, 0, None, None) }

  /** Each of its first n calls, as long as it makes any, is answered. */
  ghost predicate Unrefused(db: Db, d: Disabling, moves: nat -> Move, hit: Option<RoomId>, n: nat) {
    forall i: nat :: i < n && !AmidDisable(db, d, moves, hit, i).d.at.Closed? ==> moves(i).reply.fate.Done?
  }

  lemma UnrefusedNext(db: Db, d: Disabling, moves: nat -> Move, hit: Option<RoomId>, n: nat)
    ensures Unrefused(db, d, moves, hit, n) <==>
              n == 0 || (Unrefused(db, d, moves, hit, n - 1)
                         && (AmidDisable(db, d, moves, hit, n - 1).d.at.Closed? || moves(n - 1).reply.fate.Done?))
  {
    hide AmidDisable;
  }

  function StepsLeft(at: DisablePc): nat {
    match at
    case Find => 4
    case Revoke => 3
    case Drop => 2
    case Mark => 1
    case Closed(_) => 0
  }

  lemma DisableMakesWay(db: Db, d: Disabling, fate: Fate, hit: Option<RoomId>)
    requires CanStep(db, d, hit)
    ensures var e := StepDisable(db, d, fate, hit).d;
      && StepsLeft(e.at) < StepsLeft(d.at)
      && (e.at.Closed? && e.at.ok ==> fate.Done? && (d.at.Find? ==> hit.Some?))
      && (e.at.Closed? && !e.at.ok ==> (fate.Done? ==> d.at.Find? && hit.None?))
      && (!e.at.Closed? ==> fate.Done? && (d.at.Find? ==> hit.Some?))
  {
    match d.at { case Find => case Revoke => case Drop => case _ => }
  }

  /** A Disable ends after four calls at most, and is told ok if and only if its code names a
      room and every call it made was answered, whatever the others do in between. */
  lemma {:induction false} DisableOkIff(db: Db, code: Code, moves: nat -> Move, hit: Option<RoomId>, n: nat)
    requires hit.Some? ==> hit.value in moves(0).others(db).tables.rooms
    ensures var d := AmidDisable(db, NewDisable(code), moves, hit, n).d;
      && StepsLeft(d.at) <= (if n <= 4 then 4 - n else 0)
      && (!d.at.Closed? ==> Unrefused(db, NewDisable(code), moves, hit, n))
      && (if n == 0 then d == NewDisable(code) else !d.at.Closed? ==> !d.at.Find? && hit.Some?)
      && (d.at.Closed? ==> (d.at.ok <==> hit.Some? && Unrefused(db, NewDisable(code), moves, hit, n)))
  {
    hide StepDisable, Unrefused;
    UnrefusedNext(db, NewDisable(code), moves, hit, n);
    if n > 0 {
      DisableOkIff(db, code, moves, hit, n - 1);
      var m := AmidDisable(db, NewDisable(code), moves, hit, n - 1);
      var before := moves(n - 1).others(m.db);
      if CanStep(before, m.d, hit) { DisableMakesWay(before, m.d, moves(n - 1).reply.fate, hit); }
    }
  }

  /** Of a room that is disabled already nothing is asked. */
  lemma AlreadyDisabled(db: Db, code: Code, x: RoomId)
    requires x in db.tables.rooms && db.tables.rooms[x].status.Disabled?
    ensures StepDisable(db, NewDisable(code), Done, Some(x)) == DisableStep(db, NewDisable(code).(at := Closed(true)))
  {
  }
}
