/** Which active rooms still have what their members need: all that nobody disabled and no
    interrupted record names. The exception is real: a Reconcile that fails after the deletes
    leaves the room active. And one whose deletes fail never tries them again. */
module ProvisioningLiving {
  import opened Outcomes
  import opened RoomTables
  import opened NetBirdState
  import opened Provisioning
  import opened ProvisioningInvariant
  import opened ProvisioningSafety
  import opened ProvisioningIdempotence
  import opened ProvisioningStuck
  import opened ProvisioningRepair
  import opened SoloRuns

  /** The row names a live group, a valid setup key and a live policy, all its own. */
  predicate Lives(db: Db, x: RoomId) {
    x in db.tables.rooms &&
    var rm, row := db.remote, db.tables.rooms[x];
    && OwnsIds(rm, x, row.groupId, row.setupKeyId, row.policyId)
    && row.groupId.Some? && rm.groups[row.groupId.value].live
    && row.setupKeyId.Some? && rm.keys[row.setupKeyId.value].state.Valid?
    && row.policyId.Some? && rm.policies[row.policyId.value].live
  }

  // ---------------------------------------------------------------- what every step keeps

  ghost predicate LivingAt(s: World, x: RoomId) {
    Joinable(s, x) && x !in s.targets ==>
      Lives(s.db, x) || (x < |s.calls| && Stuck(s, s.calls[x].key, x))
  }

  ghost predicate Living(s: World) {
    && (forall x :: x in s.db.tables.rooms ==> LivingAt(s, x))
    && (s.phase.Repairing? && Working(s.phase.boot) && s.phase.boot.at.MarkOp? ==>
          !ActiveIn(s.db, s.phase.boot.todo[0].roomId))
  }

  // What somebody else's step leaves alone goes on living.
  lemma LivesOn(a: Db, b: Db, x: RoomId)
    requires Untouched(a, b, x) && Lives(a, x)
    ensures Lives(b, x)
  {
  }

  // A call that works on an active room has taken nothing back.
  lemma OwnStepLives(db: Db, targets: set<RoomId>, x: RoomId, c: Call, r: Reply)
    requires InFlight(c.pc) && CallOk(db, targets, x, c) && RowOk(db, targets, x, c) && x !in targets
    requires ActiveIn(StepCall(db, x, c, r).db, x)
    ensures Lives(StepCall(db, x, c, r).db, x)
  {
    StepCallKeeps(db, targets, x, c, r);
    ActivatingKeeps(db, targets, x, c, r);
    hide StepCall, RowFull;
  }

  lemma ActivatingKeeps(db: Db, targets: set<RoomId>, x: RoomId, c: Call, r: Reply)
    requires InFlight(c.pc) && CallOk(db, targets, x, c) && RowOk(db, targets, x, c)
    requires ActiveIn(StepCall(db, x, c, r).db, x)
    ensures var m := StepCall(db, x, c, r);
      m.db.remote == db.remote && Works(c)
      && m.call.group == c.group && m.call.keyId == c.keyId && m.call.policy == c.policy
  {
    StepCallKeeps(db, targets, x, c, r);
    var m := StepCall(db, x, c, r);
    if c.pc.Activate? || c.pc.SaveResponse? {
      hide StepGate, StepMake, StepRecord, StepUndo, StepFail;
    } else {
      OnlyActivateActivates(db, x, c, r);
    }
  }

  lemma OnlyActivateActivates(db: Db, x: RoomId, c: Call, r: Reply)
    requires InFlight(c.pc) && !c.pc.Activate?
    requires ActiveIn(StepCall(db, x, c, r).db, x)
    ensures ActiveIn(db, x)
  {
  }

  lemma AdvanceLiving(s: World, y: RoomId, r: Reply, x: RoomId)
    requires Inv(s) && Living(s) && Enabled(s, Advance(y, r)) && Joinable(Next(s, Advance(y, r)), x)
    ensures LivingAt(Next(s, Advance(y, r)), x)
  {
    var t, c := Next(s, Advance(y, r)), s.calls[y];
    assert CallOk(s.db, s.targets, y, c) && RowOk(s.db, s.targets, y, c);
    if y == x {
      if x !in s.targets { OwnStepLives(s.db, s.targets, x, c, r); }
    } else {
      StepCallLocal(s.db, y, c, r);
      ConfinedElsewhere(s.db, t.db, y, x);
      assert LivingAt(s, x);
      if Lives(s.db, x) { LivesOn(s.db, t.db, x); }
      if x < |s.calls| && Stuck(s, s.calls[x].key, x) { AdvanceStuck(s, y, r, s.calls[x].key, x); }
    }
    hide StepCall, Inv, Living, Lives, Stuck, Untouched, Confined;
  }

  lemma DisableLiving(s: World, i: nat, fate: Fate, hit: Option<RoomId>, x: RoomId)
    requires Inv(s) && Living(s) && Enabled(s, AdvanceDisable(i, fate, hit))
    requires Joinable(Next(s, AdvanceDisable(i, fate, hit)), x)
    ensures LivingAt(Next(s, AdvanceDisable(i, fate, hit)), x)
  {
    var t, d := Next(s, AdvanceDisable(i, fate, hit)), s.disables[i];
    assert DisableOk(s.db, s.targets, d);
    DisableLocal(s.db, s.targets, d, fate, hit);
    assert LivingAt(s, x) by { DisableNeverActivates(s.db, d, fate, hit, x); }
    if x !in t.targets {
      if d.room != x {
        ConfinedElsewhere(s.db, t.db, d.room, x);
      } else {
        UnharmedByFind(s.db, s.targets, d, fate, hit);
      }
      if Lives(s.db, x) { LivesOn(s.db, t.db, x); }
      if x < |s.calls| && Stuck(s, s.calls[x].key, x) {
        OthersStuck(s, AdvanceDisable(i, fate, hit), s.calls[x].key, x);
      }
    }
    hide StepDisable, Inv, Living, Lives, Stuck, Untouched, Confined;
  }

  // A Disable that has not found its room yet harms nobody.
  lemma UnharmedByFind(db: Db, targets: set<RoomId>, d: Disabling, fate: Fate, hit: Option<RoomId>)
    requires !d.at.Closed? && DisableOk(db, targets, d) && d.room !in targets
    requires d.at.Find? && hit.Some? ==> hit.value in db.tables.rooms
    ensures Untouched(db, StepDisable(db, d, fate, hit).db, d.room)
  {
    assert d.at.Find?;
    UntouchedSame(db, d.room);
    hide Untouched;
  }

  lemma RepairLiving(s: World, fate: Fate, x: RoomId)
    requires Inv(s) && Living(s) && Enabled(s, Repair(fate)) && Joinable(Next(s, Repair(fate)), x)
    ensures LivingAt(Next(s, Repair(fate)), x)
  {
    var t, b := Next(s, Repair(fate)), s.phase.boot;
    var p := b.todo[0];
    assert BootOk(s.db, b) && OpOk(s.calls, p.key, s.db.tables.ops[p.key]);
    BootLocal(s.db, b, fate);
    if !Joinable(s, x) { BootNeverActivates(s.db, b, fate, x); }
    assert LivingAt(s, x);
    if x == p.roomId {
      IdleStuck(s, p.key);
      RepairStuck(s, fate, p.key, x);
    } else {
      ConfinedElsewhere(s.db, t.db, p.roomId, x);
      if Lives(s.db, x) { LivesOn(s.db, t.db, x); }
      if x < |s.calls| && Stuck(s, s.calls[x].key, x) { RepairStuck(s, fate, s.calls[x].key, x); }
    }
    hide StepBoot, Inv, Lives, Untouched, Confined, BootOk, OpOk;
  }

  // While Reconcile runs nobody else does.
  lemma IdleStuck(s: World, k: IdemKey)
    requires PhaseOk(s) && !s.phase.Serving? && k in s.db.tables.ops && s.db.tables.ops[k].status.Creating?
    ensures Stuck(s, k, s.db.tables.ops[k].roomId)
  {
  }

  lemma LivingNext(s: World, a: Action)
    requires Inv(s) && Living(s) && Enabled(s, a)
    ensures Living(Next(s, a))
  {
    var t := Next(s, a);
    forall x | x in t.db.tables.rooms && Joinable(t, x) ensures LivingAt(t, x) {
      match a
      case Advance(y, r) => AdvanceLiving(s, y, r, x);
      case AdvanceDisable(i, fate, hit) => DisableLiving(s, i, fate, hit, x);
      case Repair(fate) => RepairLiving(s, fate, x);
      case _ => OthersLiving(s, a, x);
    }
    NoActiveAtMarkOp(s, a);
    hide Next, Inv, Enabled, LivingAt;
  }

  lemma OthersLiving(s: World, a: Action, x: RoomId)
    requires Inv(s) && Living(s) && Enabled(s, a) && !a.Advance? && !a.AdvanceDisable? && !a.Repair?
    requires Joinable(Next(s, a), x)
    ensures LivingAt(Next(s, a), x)
  {
    var t := Next(s, a);
    assert LivingAt(s, x);
    if Lives(s.db, x) { LivesOn(s.db, t.db, x); }
    if x < |s.calls| && Stuck(s, s.calls[x].key, x) { OthersStuck(s, a, s.calls[x].key, x); }
    hide Inv, Living, Lives, Stuck;
  }

  lemma NoActiveAtMarkOp(s: World, a: Action)
    requires Inv(s) && Living(s) && Enabled(s, a)
    ensures var t := Next(s, a);
      t.phase.Repairing? && Working(t.phase.boot) && t.phase.boot.at.MarkOp? ==>
        !ActiveIn(t.db, t.phase.boot.todo[0].roomId)
  {
    if a.Repair? { assert BootOk(s.db, s.phase.boot); BootToMarkOp(s.db, s.phase.boot, a.fate); }
    hide StepBoot, StepCall, StepDisable, LivingAt, CallsOk, RowsBelong, OpsOk, DisablesOk, ResultsOk, BootOk;
  }

  lemma {:induction false} LivingAlong(w: seq<World>, acts: seq<Action>, n: nat)
    requires IsRun(w, acts) && Init(w[0]) && n < |w|
    ensures Living(w[n])
  {
    hide Inv, Next, Enabled, IsRun, Living;
    if n > 0 {
      RunStep(w, acts, n - 1);
      LivingAlong(w, acts, n - 1);
      RunInv(w, acts, n - 1);
      LivingNext(w[n - 1], acts[n - 1]);
    } else {
      assert Living(w[0]) by { NothingLivesYet(w[0]); }
    }
  }

  lemma NothingLivesYet(s: World)
    requires Init(s)
    ensures Living(s)
  {
  }

  /** On every run: an active room that no Disable got hold of, and that no record still
      creating names, has a live group, a valid setup key and a live policy, and its row names
      them. */
  lemma JoinableLives(w: seq<World>, acts: seq<Action>, n: nat, x: RoomId)
    requires IsRun(w, acts) && Init(w[0]) && n < |w| && Joinable(w[n], x)
    requires x !in w[n].targets && !NamedBy(w[n].db.tables.ops, x)
    ensures Lives(w[n].db, x)
  {
    LivingAlong(w, acts, n);
    assert LivingAt(w[n], x);
  }

  // ---------------------------------------------------------------- the exception is real

  /** The row names a group, a setup key and a policy, and none of them is there. */
  predicate Hollow(db: Db, x: RoomId) {
    x in db.tables.rooms &&
    var row := db.tables.rooms[x];
    row.groupId.Some? && row.setupKeyId.Some? && row.policyId.Some? && Cleared(db, x)
  }

  // The records still creating, one of them first.
  lemma Listing(ops: map<IdemKey, Operation>, k: IdemKey) returns (todo: seq<Pending>)
    requires k in ops && ops[k].status.Creating?
    ensures IsListing(ops, todo) && todo != [] && todo[0] == Pending(k, ops[k].roomId)
  {
    todo := [Pending(k, ops[k].roomId)];
    var left := (set j | j in ops && ops[j].status.Creating?) - {k};
    while left != {}
      invariant forall j :: j in left ==> j in ops && ops[j].status.Creating?
      invariant todo != [] && todo[0] == Pending(k, ops[k].roomId)
      invariant forall i :: 0 <= i < |todo| ==>
                  todo[i].key in ops && ops[todo[i].key].status.Creating? && ops[todo[i].key].roomId == todo[i].roomId
      invariant forall i, j :: 0 <= i < j < |todo| ==> todo[i].key != todo[j].key
      invariant forall i :: 0 <= i < |todo| ==> todo[i].key !in left
      invariant forall j :: j in ops && ops[j].status.Creating? && j !in left ==>
                  exists i :: 0 <= i < |todo| && todo[i].key == j
      decreases left
    {
      var j :| j in left;
      ghost var before := todo;
      todo, left := todo + [Pending(j, ops[j].roomId)], left - {j};
      assert todo[|before|].key == j && forall i :: 0 <= i < |before| ==> todo[i] == before[i];
    }
  }

  function StepsLeft(at: BootPc): nat {
    match at
    case Fetch => 5
    case BootPolicy => 4
    case BootRevoke => 3
    case BootKey => 2
    case BootGroup => 1
    case _ => 0
  }

  lemma StepDeletes(db: Db, b: Boot)
    requires BootOk(db, b) && HalfRepaired(db, b) && !b.at.MarkRoom? && !b.at.MarkOp?
    requires b.todo[0].roomId in db.tables.rooms
    ensures var m := StepBoot(db, b, Done);
      && m.db.tables == db.tables && m.boot.Reconciling? && m.boot.todo == b.todo
      && StepsLeft(m.boot.at) < StepsLeft(b.at) && !m.boot.at.MarkOp?
  {
    match b.at {
      case Fetch => case BootPolicy => case BootRevoke =>
      case BootKey => case _ =>
    }
  }

  // Reconcile starts on room x and deletes all its row names.
  lemma DeletesAll(w: seq<World>, acts: seq<Action>, x: RoomId) returns (v: seq<World>, more: seq<Action>)
    requires IsRun(w, acts) && Init(w[0]) && Joinable(w[|acts|], x)
    requires var s := w[|acts|];
      && s.phase.Repairing? && Working(s.phase.boot) && s.phase.boot.at.Fetch? && s.phase.boot.todo[0].roomId == x
    ensures IsRun(v, more) && v[0] == w[0]
    ensures var s, t := w[|acts|], v[|more|];
      && t.db.tables == s.db.tables && t.phase.Repairing? && Working(t.phase.boot)
      && t.phase.boot.at.MarkRoom? && t.phase.boot.todo[0].roomId == x && HalfRepaired(t.db, t.phase.boot)
      && BootOk(t.db, t.phase.boot)
  {
    v, more := w, acts;
    var s := w[|acts|];
    RunInv(v, more, |more|);
    InvBoot(s);
    while !s.phase.boot.at.MarkRoom?
      invariant IsRun(v, more) && v[0] == w[0] && s == v[|more|] && s.db.tables == w[|acts|].db.tables
      invariant s.phase.Repairing? && Working(s.phase.boot) && s.phase.boot.todo[0].roomId == x
      invariant BootOk(s.db, s.phase.boot) && HalfRepaired(s.db, s.phase.boot) && !s.phase.boot.at.MarkOp?
      decreases StepsLeft(s.phase.boot.at)
    {
      hide IsRun, Init, BootOk, HalfRepaired, StepBoot, Inv, Next, Enabled;
      StepDeletes(s.db, s.phase.boot);
      StepRepairs(s.db, s.phase.boot);
      CanRepair(s, Done);
      v, more, s := Act(v, more, Repair(Done));
      RunInv(v, more, |more|);
      InvBoot(s);
    }
  }

  lemma InvBoot(s: World)
    requires Inv(s) && s.phase.Repairing?
    ensures BootOk(s.db, s.phase.boot)
  {
  }

  lemma CanRepair(s: World, fate: Fate)
    requires s.phase.Repairing? && BootOk(s.db, s.phase.boot)
    ensures Enabled(s, Repair(fate))
    ensures var m, t := StepBoot(s.db, s.phase.boot, fate), Next(s, Repair(fate));
      t.db == m.db && t.phase == AfterBoot(m.boot)
  {
  }

  /** Any run that ends before a Reconcile with an active room that a record still creating
      names can go on so that the server serves with the room active and nothing left of it:
      the status of the room cannot be written. */
  lemma HalfRepairHollows(w: seq<World>, acts: seq<Action>, k: IdemKey, x: RoomId)
    returns (v: seq<World>, more: seq<Action>)
    requires IsRun(w, acts) && Init(w[0]) && w[|acts|].phase.Starting?
    requires Joinable(w[|acts|], x) && PendingFor(w[|acts|].db.tables.ops, k, x)
    ensures IsRun(v, more) && v[0] == w[0]
    ensures var t := v[|more|]; t.phase.Serving? && Joinable(t, x) && Hollow(t.db, x)
  {
    var s := w[|acts|];
    var todo := Listing(s.db.tables.ops, k);
    v, more, s := Act(w, acts, ListPending(Done, todo));
    hide Init, Inv, IsRun, IsListing;
    v, more := DeletesAll(v, more, x);
    s := v[|more|];
    RunInv(v, more, |more|);
    ActiveComplete(s, x);
    CanRepair(s, Refused);
    v, more, s := Act(v, more, Repair(Refused));
  }

  lemma ActiveComplete(s: World, x: RoomId)
    requires Inv(s) && Joinable(s, x)
    ensures var row := s.db.tables.rooms[x]; row.groupId.Some? && row.setupKeyId.Some? && row.policyId.Some?
  {
    assert RowOk(s.db, s.targets, x, s.calls[x]);
  }

  // ---------------------------------------------------------------- a delete is tried once

  // The fate of each step when every delete is refused.
  function Unhelpful(at: BootPc): Fate { if at.Fetch? then Done else Refused }

  lemma StepSkips(db: Db, b: Boot)
    requires BootOk(db, b) && !b.at.MarkRoom? && !b.at.MarkOp? && b.todo[0].roomId in db.tables.rooms
    ensures var m := StepBoot(db, b, Unhelpful(b.at));
      && m.db == db && m.boot.Reconciling? && m.boot.todo == b.todo
      && StepsLeft(m.boot.at) < StepsLeft(b.at) && !m.boot.at.MarkOp?
  {
    match b.at {
      case Fetch => case BootPolicy => case BootRevoke =>
      case BootKey => case _ =>
    }
  }

  // Reconcile starts on room x and deletes nothing.
  lemma DeletesNothing(w: seq<World>, acts: seq<Action>, p: Pending) returns (v: seq<World>, more: seq<Action>)
    requires IsRun(w, acts) && Init(w[0]) && p.roomId in w[|acts|].db.tables.rooms
    requires var s := w[|acts|];
      s.phase.Repairing? && Working(s.phase.boot) && s.phase.boot.at.Fetch? && s.phase.boot.todo[0] == p
    ensures IsRun(v, more) && v[0] == w[0]
    ensures var s, t := w[|acts|], v[|more|];
      && t.db == s.db && t.phase.Repairing? && Working(t.phase.boot)
      && t.phase.boot.at.MarkRoom? && t.phase.boot.todo[0] == p && BootOk(t.db, t.phase.boot)
  {
    v, more := w, acts;
    var s := w[|acts|];
    RunInv(v, more, |more|);
    InvBoot(s);
    while !s.phase.boot.at.MarkRoom?
      invariant IsRun(v, more) && v[0] == w[0] && s == v[|more|] && s.db == w[|acts|].db
      invariant s.phase.Repairing? && Working(s.phase.boot) && s.phase.boot.todo[0] == p
      invariant BootOk(s.db, s.phase.boot) && !s.phase.boot.at.MarkOp?
      decreases StepsLeft(s.phase.boot.at)
    {
      hide IsRun, Init, BootOk, StepBoot, Inv, Next, Enabled;
      StepSkips(s.db, s.phase.boot);
      CanRepair(s, Unhelpful(s.phase.boot.at));
      v, more, s := Act(v, more, Repair(Unhelpful(s.phase.boot.at)));
      RunInv(v, more, |more|);
      InvBoot(s);
    }
  }

  lemma MarksBoth(db: Db, b: Boot)
    requires BootOk(db, b) && b.at.MarkRoom?
    ensures var m := StepBoot(db, b, Done);
      && m.db == Db(db.tables.SetStatus(b.todo[0].roomId, Error), db.remote) && m.boot == b.(at := MarkOp)
    ensures var m := StepBoot(db, b, Done);
      var m' := StepBoot(m.db, m.boot, Done);
      m'.db == Db(m.db.tables.SaveOperation(b.todo[0].key, Blank, Error), m.db.remote) && m'.boot == Rest(b.todo[1..])
  {
  }

  /** Any run that ends before a Reconcile with a creating record can go on so that Reconcile is
      refused its deletes and finishes the record all the same: whatever its room's row names
      is as it was, no record names the room any more, and, by ReconcileClearsExactly, no later
      Reconcile deletes it. */
  lemma RefusedDeletesStay(w: seq<World>, acts: seq<Action>, k: IdemKey, x: RoomId)
    returns (v: seq<World>, more: seq<Action>)
    requires IsRun(w, acts) && Init(w[0]) && w[|acts|].phase.Starting?
    requires x in w[|acts|].db.tables.rooms && PendingFor(w[|acts|].db.tables.ops, k, x)
    ensures IsRun(v, more) && v[0] == w[0]
    ensures var s, t := w[|acts|], v[|more|];
      && t.phase.Starting? && t.db.remote == s.db.remote && x in t.db.tables.rooms
      && t.db.tables.rooms[x] == s.db.tables.rooms[x].(status := Error)
      && k in t.db.tables.ops && t.db.tables.ops[k].status.Error? && !NamedBy(t.db.tables.ops, x)
  {
    hide Init, Inv, IsListing, BootOk, NamedBy;
    var s := w[|acts|];
    var todo := Listing(s.db.tables.ops, k);
    v, more, s := Act(w, acts, ListPending(Done, todo));
    v, more := DeletesNothing(v, more, Pending(k, x));
    s := v[|more|];
    hide StepBoot;
    MarksBoth(s.db, s.phase.boot);
    CanRepair(s, Done);
    v, more, s := Act(v, more, Repair(Done));
    RunInv(v, more, |more|);
    InvBoot(s);
    CanRepair(s, Done);
    v, more, s := Act(v, more, Repair(Done));
    RunInv(v, more, |more|);
    NoLongerNamed(s, k, x);
    v, more, s := Act(v, more, Crash);
  }

  lemma NoLongerNamed(s: World, k: IdemKey, x: RoomId)
    requires Inv(s) && k in s.db.tables.ops && s.db.tables.ops[k].roomId == x && !s.db.tables.ops[k].status.Creating?
    ensures !NamedBy(s.db.tables.ops, x)
  {
    forall j | j in s.db.tables.ops && s.db.tables.ops[j].status.Creating? ensures s.db.tables.ops[j].roomId != x {
      assert OpOk(s.calls, j, s.db.tables.ops[j]) && OpOk(s.calls, k, s.db.tables.ops[k]);
    }
  }
}
