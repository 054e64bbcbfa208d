/** What a lost reply leaves behind. A creation whose reply is Lost makes a resource whose
    identifier nobody learns: not the call, not its row, not a Disable and not a Reconcile.
    It is never taken back. */
module ProvisioningLosses {
  import opened Outcomes
  import opened RoomTables
  import opened NetBirdState
  import opened Provisioning
  import opened ProvisioningInvariant
  import opened ProvisioningResources

  // ---------------------------------------------------------------- who knows which identifier

  predicate NoneOr(id: Option<nat>, own: Option<nat>) { id.None? || id == own }

  /** Before it has asked for a resource the call has no identifier for it. */
  predicate Unmade(c: Call) {
    && (BeforeGroup(c.pc) ==> c.group.None?)
    && (BeforeGroup(c.pc) || c.pc.MakeKey? ==> c.keyId.None?)
    && (BeforePolicy(c.pc) ==> c.policy.None?)
  }

  predicate DisableKnows(calls: seq<Call>, d: Disabling) {
    (d.at.Revoke? || d.at.Drop? || d.at.Mark?) && d.room < |calls| ==>
      NoneOr(d.keyId, calls[d.room].keyId) && NoneOr(d.policyId, calls[d.room].policy)
  }

  predicate BootKnows(calls: seq<Call>, b: Boot) {
    Working(b) && Touching(b.at) && b.row.Some? && b.todo[0].roomId < |calls| ==>
      var c, row := calls[b.todo[0].roomId], b.row.value;
      NoneOr(row.groupId, c.group) && NoneOr(row.setupKeyId, c.keyId) && NoneOr(row.policyId, c.policy)
  }

  // ---------------------------------------------------------------- what is lost

  ghost predicate LiveGroup(rm: Remote, x: RoomId) {
    exists g :: 0 <= g < |rm.groups| && rm.groups[g].made && rm.groups[g].name == x && rm.groups[g].live
  }

  ghost predicate ValidKey(rm: Remote, x: RoomId) {
    exists n :: 0 <= n < |rm.keys| && rm.keys[n].room == x && rm.keys[n].state.Valid?
  }

  ghost predicate LivePolicy(rm: Remote, x: RoomId) {
    exists p :: 0 <= p < |rm.policies| && rm.policies[p].room == x && rm.policies[p].live
  }

  /** The lost resource lives, and the call, which is on its way out, does not know it. */
  ghost predicate Lives(rm: Remote, x: RoomId, c: Call) {
    || (c.group.None? && LiveGroup(rm, x))
    || (c.group.Some? && c.keyId.None? && ValidKey(rm, x))
    || (c.keyId.Some? && c.policy.None? && LivePolicy(rm, x))
  }

  ghost predicate LossOk(rm: Remote, x: RoomId, c: Call) {
    && Unmade(c)
    && (!c.sure ==>
          && (c.pc.RevokeKey? || c.pc.DropGroup? || c.pc.FailRoom? || c.pc.FailOp? || !InFlight(c.pc))
          && Lives(rm, x, c))
  }

  // ---------------------------------------------------------------- one step of Create

  lemma GateLoss(db: Db, x: RoomId, c: Call, r: Reply)
    requires c.pc.Lookup? || c.pc.Reset? || c.pc.Insert? || c.pc.InsertRoom?
    requires LossOk(db.remote, x, c)
    ensures var m := StepGate(db, x, c, r); LossOk(m.db.remote, x, m.call)
  {
  }

  lemma MakeLoss(db: Db, x: RoomId, c: Call, r: Reply)
    requires c.pc.FindTheGroup? || c.pc.MakeGroup? || c.pc.MakeKey? || c.pc.MakePolicy?
    requires LossOk(db.remote, x, c) && HoldsFor(c)
    ensures var m := StepMake(db, x, c, r); LossOk(m.db.remote, x, m.call)
  {
    var a, b := db.remote, StepMake(db, x, c, r).db.remote;
    if r.fate.Lost? {
      assert c.pc.MakeGroup? ==> b.groups[|a.groups|] == Group(x, true, true);
      assert c.pc.MakeKey? ==> b.keys[|a.keys|] == SetupKey(x, r.secret, Valid);
      assert c.pc.MakePolicy? ==> b.policies[|a.policies|] == Policy(x, true);
    }
  }

  lemma RecordLoss(db: Db, x: RoomId, c: Call, r: Reply)
    requires c.pc.RecordKey? || c.pc.RecordPolicy?
    requires LossOk(db.remote, x, c)
    ensures var m := StepRecord(db, x, c, r); LossOk(m.db.remote, x, m.call)
  {
  }

  lemma CloseLoss(db: Db, x: RoomId, c: Call, r: Reply)
    requires c.pc.Activate? || c.pc.SaveResponse?
    requires LossOk(db.remote, x, c)
    ensures var m := StepClose(db, x, c, r); LossOk(m.db.remote, x, m.call)
  {
  }

  lemma UndoLoss(db: Db, x: RoomId, c: Call, r: Reply)
    requires c.pc.DropPolicy? || c.pc.RevokeKey? || c.pc.DropGroup?
    requires LossOk(db.remote, x, c) && CleansUp(db.remote, x, c)
    ensures var m := StepUndo(db, x, c, r); LossOk(m.db.remote, x, m.call)
  {
    var m := StepUndo(db, x, c, r);
    if !c.sure { LivesOn(db.remote, m.db.remote, x, c, m.call); }
  }

  lemma FailLoss(db: Db, x: RoomId, c: Call, r: Reply)
    requires c.pc.FailRoom? || c.pc.FailOp?
    requires LossOk(db.remote, x, c)
    ensures var m := StepFail(db, x, c, r); LossOk(m.db.remote, x, m.call)
  {
  }

  /** Nothing that leaves the unknown resource alone takes it back. */
  lemma LivesOn(a: Remote, b: Remote, x: RoomId, c: Call, d: Call)
    requires Lives(a, x, c) && d.group == c.group && d.keyId == c.keyId && d.policy == c.policy
    requires |a.groups| <= |b.groups| && |a.keys| <= |b.keys| && |a.policies| <= |b.policies|
    requires forall g :: 0 <= g < |a.groups| && a.groups[g].name == x && Some(g) != c.group ==>
            b.groups[g] == a.groups[g]
    requires forall n :: 0 <= n < |a.keys| && a.keys[n].room == x && Some(n) != c.keyId ==> b.keys[n] == a.keys[n]
    requires forall p :: 0 <= p < |a.policies| && a.policies[p].room == x && Some(p) != c.policy ==>
            b.policies[p] == a.policies[p]
    ensures Lives(b, x, d)
  {
    if c.group.None? && LiveGroup(a, x) {
      var g :| 0 <= g < |a.groups| && a.groups[g].made && a.groups[g].name == x && a.groups[g].live;
      assert b.groups[g] == a.groups[g];
    } else if c.group.Some? && c.keyId.None? && ValidKey(a, x) {
      var n :| 0 <= n < |a.keys| && a.keys[n].room == x && a.keys[n].state.Valid?;
      assert b.keys[n] == a.keys[n];
    } else {
      var p :| 0 <= p < |a.policies| && a.policies[p].room == x && a.policies[p].live;
      assert b.policies[p] == a.policies[p];
    }
  }

  lemma OwnLoss(db: Db, x: RoomId, c: Call, r: Reply)
    requires InFlight(c.pc) && LossOk(db.remote, x, c) && HoldsFor(c) && CleansUp(db.remote, x, c)
    ensures var m := StepCall(db, x, c, r); LossOk(m.db.remote, x, m.call)
  {
    hide LossOk, HoldsFor, CleansUp, StepGate, StepMake, StepRecord, StepClose, StepUndo, StepFail;
    match c.pc {
      case Lookup | Reset | Insert | InsertRoom => GateLoss(db, x, c, r);
      case FindTheGroup | MakeGroup | MakeKey | MakePolicy => MakeLoss(db, x, c, r);
      case RecordKey | RecordPolicy => RecordLoss(db, x, c, r);
      case Activate | SaveResponse => CloseLoss(db, x, c, r);
      case DropPolicy | RevokeKey | DropGroup => UndoLoss(db, x, c, r);
      case FailRoom | FailOp => FailLoss(db, x, c, r);
    }
  }

  /** An identifier the call once has stays its own. */
  predicate KeepsIds(c: Call, d: Call) {
    NoneOr(c.group, d.group) && NoneOr(c.keyId, d.keyId) && NoneOr(c.policy, d.policy) && (d.sure ==> c.sure)
  }

  lemma GateIds(db: Db, x: RoomId, c: Call, r: Reply)
    requires c.pc.Lookup? || c.pc.Reset? || c.pc.Insert? || c.pc.InsertRoom?
    requires Unmade(c)
    ensures KeepsIds(c, StepGate(db, x, c, r).call)
  {
  }

  lemma MakeIds(db: Db, x: RoomId, c: Call, r: Reply)
    requires c.pc.FindTheGroup? || c.pc.MakeGroup? || c.pc.MakeKey? || c.pc.MakePolicy?
    requires Unmade(c)
    ensures KeepsIds(c, StepMake(db, x, c, r).call)
  {
  }

  lemma RecordIds(db: Db, x: RoomId, c: Call, r: Reply)
    requires c.pc.RecordKey? || c.pc.RecordPolicy?
    requires Unmade(c)
    ensures KeepsIds(c, StepRecord(db, x, c, r).call)
  {
  }

  lemma CloseIds(db: Db, x: RoomId, c: Call, r: Reply)
    requires c.pc.Activate? || c.pc.SaveResponse?
    requires Unmade(c)
    ensures KeepsIds(c, StepClose(db, x, c, r).call)
  {
  }

  lemma UndoIds(db: Db, x: RoomId, c: Call, r: Reply)
    requires c.pc.DropPolicy? || c.pc.RevokeKey? || c.pc.DropGroup?
    requires Unmade(c)
    ensures KeepsIds(c, StepUndo(db, x, c, r).call)
  {
  }

  lemma FailIds(db: Db, x: RoomId, c: Call, r: Reply)
    requires c.pc.FailRoom? || c.pc.FailOp?
    requires Unmade(c)
    ensures KeepsIds(c, StepFail(db, x, c, r).call)
  {
  }

  lemma OwnIdsStay(db: Db, x: RoomId, c: Call, r: Reply)
    requires InFlight(c.pc) && Unmade(c)
    ensures KeepsIds(c, StepCall(db, x, c, r).call)
  {
    hide Unmade, KeepsIds, StepGate, StepMake, StepRecord, StepClose, StepUndo, StepFail;
    match c.pc {
      case Lookup | Reset | Insert | InsertRoom => GateIds(db, x, c, r);
      case FindTheGroup | MakeGroup | MakeKey | MakePolicy => MakeIds(db, x, c, r);
      case RecordKey | RecordPolicy => RecordIds(db, x, c, r);
      case Activate | SaveResponse => CloseIds(db, x, c, r);
      case DropPolicy | RevokeKey | DropGroup => UndoIds(db, x, c, r);
      case FailRoom | FailOp => FailIds(db, x, c, r);
    }
  }

  // ---------------------------------------------------------------- everybody else

  lemma OthersLoss(a: Remote, b: Remote, x: RoomId, y: RoomId, c: Call)
    requires LossOk(a, y, c) && RemoteConfined(a, b, x) && x != y
    ensures LossOk(b, y, c)
  {
    if !c.sure { LivesOn(a, b, y, c, c); }
  }

  ghost predicate LossesOk(s: World) {
    && (forall x :: 0 <= x < |s.calls| ==> LossOk(s.db.remote, x, s.calls[x]))
    && (forall i :: 0 <= i < |s.disables| ==> DisableKnows(s.calls, s.disables[i]))
    && (s.phase.Repairing? ==> BootKnows(s.calls, s.phase.boot))
  }

  lemma AdvanceLoss(s: World, x: RoomId, r: Reply, y: RoomId)
    requires Inv(s) && Tallied(s) && LossesOk(s) && Enabled(s, Advance(x, r)) && y < |s.calls|
    ensures var m := StepCall(s.db, x, s.calls[x], r); LossOk(m.db.remote, y, if y == x then m.call else s.calls[y])
  {
    var c, m := s.calls[x], StepCall(s.db, x, s.calls[x], r);
    assert CallOk(s.db, s.targets, x, c) && TallyOk(s.db, x, c) && LossOk(s.db.remote, x, c);
    assert LossOk(s.db.remote, y, s.calls[y]);
    hide Inv, Tallied, LossesOk, LossOk, StepCall, Honest, RemoteConfined, RowsConfined;
    if y == x {
      OwnLoss(s.db, x, c, r);
    } else {
      StepCallLocal(s.db, x, c, r);
      OthersLoss(s.db.remote, m.db.remote, x, y, s.calls[y]);
    }
  }

  lemma AdvanceLosses(s: World, x: RoomId, r: Reply)
    requires Inv(s) && Tallied(s) && LossesOk(s) && Enabled(s, Advance(x, r))
    ensures LossesOk(Next(s, Advance(x, r)))
  {
    var c, m := s.calls[x], StepCall(s.db, x, s.calls[x], r);
    assert LossOk(s.db.remote, x, c) && s.phase.Serving?;
    OwnIdsStay(s.db, x, c, r);
    forall y | 0 <= y < |s.calls| ensures LossOk(m.db.remote, y, if y == x then m.call else s.calls[y]) {
      AdvanceLoss(s, x, r, y);
    }
    StillKnows(s.calls, x, m.call, s.disables);
    hide StepCall, Inv, Tallied, LossOk, DisableKnows, KeepsIds;
  }

  lemma StillKnows(calls: seq<Call>, x: RoomId, d: Call, disables: seq<Disabling>)
    requires x < |calls| && KeepsIds(calls[x], d)
    requires forall i :: 0 <= i < |disables| ==> DisableKnows(calls, disables[i])
    ensures forall i :: 0 <= i < |disables| ==> DisableKnows(calls[x := d], disables[i])
  {
  }

  /** What a Disable asks for in its own room is nothing that was lost. */
  lemma DisableLoss(s: World, i: nat, fate: Fate, hit: Option<RoomId>, x: RoomId)
    requires Inv(s) && LossesOk(s) && Enabled(s, AdvanceDisable(i, fate, hit)) && x < |s.calls|
    ensures LossOk(StepDisable(s.db, s.disables[i], fate, hit).db.remote, x, s.calls[x])
  {
    var d, c := s.disables[i], s.calls[x];
    var m := StepDisable(s.db, d, fate, hit);
    assert DisableOk(s.db, s.targets, d) && DisableKnows(s.calls, d) && LossOk(s.db.remote, x, c);
    DisableLocal(s.db, s.targets, d, fate, hit);
    hide Inv;
    if d.room != x { OthersLoss(s.db.remote, m.db.remote, d.room, x, c); }
    else if !c.sure && !d.at.Find? { LivesOn(s.db.remote, m.db.remote, x, c, c); }
  }

  /** Nor is what a Reconcile asks for. */
  lemma OwnRepairLoss(db: Db, b: Boot, fate: Fate, x: RoomId, c: Call)
    requires BootOk(db, b) && b.todo[0].roomId == x && Lives(db.remote, x, c)
    requires Touching(b.at) ==>
      var row := b.row.value;
      NoneOr(row.groupId, c.group) && NoneOr(row.setupKeyId, c.keyId) && NoneOr(row.policyId, c.policy)
    ensures Lives(StepBoot(db, b, fate).db.remote, x, c)
  {
    hide Lives;
    match b.at {
      case Fetch => case BootPolicy => case BootRevoke =>
      case BootKey => case BootGroup => case MarkRoom => case _ =>
    }
    LivesOn(db.remote, StepBoot(db, b, fate).db.remote, x, c, c);
  }

  lemma RepairLoss(s: World, fate: Fate, x: RoomId)
    requires Inv(s) && LossesOk(s) && Enabled(s, Repair(fate)) && x < |s.calls|
    ensures LossOk(StepBoot(s.db, s.phase.boot, fate).db.remote, x, s.calls[x])
  {
    var b, c := s.phase.boot, s.calls[x];
    assert BootOk(s.db, b) && BootKnows(s.calls, b) && LossOk(s.db.remote, x, c);
    hide Inv, StepBoot, Lives;
    if b.todo[0].roomId != x {
      BootLocal(s.db, b, fate);
      OthersLoss(s.db.remote, StepBoot(s.db, b, fate).db.remote, b.todo[0].roomId, x, c);
    } else if !c.sure {
      OwnRepairLoss(s.db, b, fate, x, c);
    }
  }

  lemma DisableLosses(s: World, i: nat, fate: Fate, hit: Option<RoomId>)
    requires Inv(s) && LossesOk(s) && Enabled(s, AdvanceDisable(i, fate, hit))
    ensures LossesOk(Next(s, AdvanceDisable(i, fate, hit)))
  {
    var m := StepDisable(s.db, s.disables[i], fate, hit);
    forall x | 0 <= x < |s.calls| ensures LossOk(m.db.remote, x, s.calls[x]) { DisableLoss(s, i, fate, hit, x); }
    DisableLearns(s, i, fate, hit);
    hide Inv, LossOk, StepDisable, DisableKnows;
  }

  /** A Disable reads the identifiers of its room's row, which are the call's own. */
  lemma DisableLearns(s: World, i: nat, fate: Fate, hit: Option<RoomId>)
    requires Inv(s) && LossesOk(s) && Enabled(s, AdvanceDisable(i, fate, hit))
    ensures DisableKnows(s.calls, StepDisable(s.db, s.disables[i], fate, hit).d)
  {
    var d := s.disables[i];
    assert DisableKnows(s.calls, d);
    if d.at.Find? && hit.Some? && hit.value < |s.calls| {
      assert RowOk(s.db, s.targets, hit.value, s.calls[hit.value]);
    }
    hide Inv, LossOk;
  }

  lemma RepairLosses(s: World, fate: Fate)
    requires Inv(s) && LossesOk(s) && Enabled(s, Repair(fate))
    ensures LossesOk(Next(s, Repair(fate)))
  {
    var m := StepBoot(s.db, s.phase.boot, fate);
    forall x | 0 <= x < |s.calls| ensures LossOk(m.db.remote, x, s.calls[x]) { RepairLoss(s, fate, x); }
    RepairLearns(s, fate);
    hide Inv, LossOk, StepBoot, BootKnows;
  }

  lemma RepairLearns(s: World, fate: Fate)
    requires Inv(s) && LossesOk(s) && Enabled(s, Repair(fate))
    ensures BootKnows(s.calls, StepBoot(s.db, s.phase.boot, fate).boot)
  {
    var b := s.phase.boot;
    var y := b.todo[0].roomId;
    assert BootKnows(s.calls, b);
    if y < |s.calls| { assert RowOk(s.db, s.targets, y, s.calls[y]); }
    hide Inv, LossOk;
    match b.at {
      case Fetch => case BootPolicy => case BootRevoke =>
      case BootKey => case BootGroup => case MarkRoom => case _ =>
    }
  }

  lemma ForeignLoss(rm: Remote, name: RoomId, x: RoomId, c: Call)
    requires LossOk(rm, x, c)
    ensures LossOk(rm.CreateGroup(name, false), x, c)
  {
    if !c.sure { LivesOn(rm, rm.CreateGroup(name, false), x, c, c); }
  }

  lemma CrashedLoss(rm: Remote, x: RoomId, c: Call)
    requires LossOk(rm, x, c)
    ensures LossOk(rm, x, DropCall(c))
  {
  }

  lemma CalmLosses(s: World, a: Action)
    requires Inv(s) && LossesOk(s) && Enabled(s, a)
    requires !a.Advance? && !a.AdvanceDisable? && !a.Repair?
    ensures LossesOk(Next(s, a))
  {
    var t := Next(s, a);
    forall x | 0 <= x < |s.calls| ensures LossOk(t.db.remote, x, t.calls[x]) {
      assert LossOk(s.db.remote, x, s.calls[x]);
      if a.Crash? { CrashedLoss(s.db.remote, x, s.calls[x]); }
      if a.ForeignGroup? { ForeignLoss(s.db.remote, a.name, x, s.calls[x]); }
      hide LossOk;
    }
    hide Inv, Lives;
  }

  lemma LossesNext(s: World, a: Action)
    requires Inv(s) && Tallied(s) && LossesOk(s) && Enabled(s, a)
    ensures LossesOk(Next(s, a))
  {
    hide *;
    match a
    case Advance(x, r) => AdvanceLosses(s, x, r);
    case AdvanceDisable(i, fate, hit) => DisableLosses(s, i, fate, hit);
    case Repair(fate) => RepairLosses(s, fate);
    case _ => CalmLosses(s, a);
  }

  lemma {:induction false} LossesAlong(w: seq<World>, acts: seq<Action>, n: nat)
    requires IsRun(w, acts) && Init(w[0]) && n < |w|
    ensures LossesOk(w[n])
  {
    if n > 0 {
      hide Inv, Tallied, LossesOk, Next, Enabled, IsRun, Init;
      RunStep(w, acts, n - 1);
      LossesAlong(w, acts, n - 1);
      RunInv(w, acts, n - 1);
      TallyAlong(w, acts, n - 1);
      LossesNext(w[n - 1], acts[n - 1]);
    }
  }

  // ---------------------------------------------------------------- what is left

  lemma {:induction false} StaysUnsure(w: seq<World>, acts: seq<Action>, n: nat, m: nat, x: RoomId)
    requires IsRun(w, acts) && Init(w[0]) && n <= m < |w| && x < |w[n].calls| && !w[n].calls[x].sure
    ensures x < |w[m].calls| && !w[m].calls[x].sure
  {
    hide IsRun, Init, Next, Enabled, Unmade;
    if n < m {
      StaysUnsure(w, acts, n, m - 1, x);
      RunStep(w, acts, m - 1);
      NothingUnmade(w, acts, m - 1, x);
      UnsureStep(w[m - 1], acts[m - 1], x);
    }
  }

  lemma NothingUnmade(w: seq<World>, acts: seq<Action>, n: nat, x: RoomId)
    requires IsRun(w, acts) && Init(w[0]) && n < |w| && x < |w[n].calls|
    ensures Unmade(w[n].calls[x])
  {
    LossesAlong(w, acts, n);
    assert LossOk(w[n].db.remote, x, w[n].calls[x]);
    hide IsRun, Init;
  }

  lemma UnsureStep(s: World, a: Action, x: RoomId)
    requires Enabled(s, a) && x < |s.calls| && !s.calls[x].sure && Unmade(s.calls[x])
    ensures x < |Next(s, a).calls| && !Next(s, a).calls[x].sure
  {
    if a.Advance? && a.x == x { OwnIdsStay(s.db, x, s.calls[x], a.reply); }
    hide StepCall, StepBoot, StepDisable;
  }

  /** A creation whose reply was Lost: from then on, for ever, whatever anybody does, a live
      policy, a live group or a valid key of that room is there. */
  lemma LostForever(w: seq<World>, acts: seq<Action>, n: nat, m: nat, x: RoomId)
    requires IsRun(w, acts) && Init(w[0]) && n <= m < |w| && x < |w[n].calls| && !w[n].calls[x].sure
    ensures !NothingLives(w[m].db.remote, x)
  {
    StaysUnsure(w, acts, n, m, x);
    LossesAlong(w, acts, m);
    assert LossOk(w[m].db.remote, x, w[m].calls[x]);
  }

  /** A Create that gave up through fail() and had no compensating delete Refused leaves
      nothing behind if and only if no creation of it was Lost. */
  lemma UnwoundLeavesNothingIff(w: seq<World>, acts: seq<Action>, n: nat, x: RoomId)
    requires IsRun(w, acts) && Init(w[0]) && n < |w| && x < |w[n].calls|
    requires w[n].calls[x].pc == Out(Unwound) && w[n].calls[x].tidy
    ensures NothingLives(w[n].db.remote, x) <==> w[n].calls[x].sure
  {
    if w[n].calls[x].sure { FailedCreateLeaves(w, acts, n, x); } else { LostForever(w, acts, n, n, x); }
    hide NothingLives, IsRun, Init;
  }
}
