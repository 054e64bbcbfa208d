/** Groups that somebody else gave the name of a room. Create takes one it finds for its own,
    and two places delete it: the compensation of service.go:168-171, which does not ask who
    made the group, and Reconcile, service.go:231, which cannot know. */
module ProvisioningForeign {
  import opened Outcomes
  import opened RoomTables
  import opened NetBirdState
  import opened Provisioning
  import opened ProvisioningInvariant

  /** A group the call says it made was made by the Room API; one it did not make is deleted
      by the sweeping compensation only. */
  predicate MarkOk(rm: Remote, c: Call) {
    && (c.made ==> rm.HasGroup(c.group) && rm.groups[c.group.value].made)
    && (c.pc.DropGroup? ==> c.made || c.sweep)
    && (c.pc.FindTheGroup? || c.pc.MakeGroup? || BeforeRow(c.pc) ==> !c.made)
  }

  ghost predicate Marks(s: World) {
    forall x :: 0 <= x < |s.calls| ==> MarkOk(s.db.remote, s.calls[x])
  }

  // The groups of before, but for the one deleted.
  predicate GroupsLess(a: Remote, b: Remote, gone: Option<nat>) {
    |a.groups| <= |b.groups| &&
    forall g :: 0 <= g < |a.groups| ==>
      b.groups[g] == if gone == Some(g) then a.groups[g].(live := false) else a.groups[g]
  }

  // ---------------------------------------------------------------- one step

  // The group that a step of Create deletes.
  function Dropped(c: Call, r: Reply): Option<nat> {
    if c.pc.DropGroup? && r.fate.Applied() then c.group else None
  }

  lemma OwnStepGroups(db: Db, x: RoomId, c: Call, r: Reply)
    requires InFlight(c.pc) && MarkOk(db.remote, c)
    ensures var m := StepCall(db, x, c, r);
      GroupsLess(db.remote, m.db.remote, Dropped(c, r)) && MarkOk(m.db.remote, m.call)
  {
    hide StepGate, StepMake, StepRecord, StepClose, StepUndo, StepFail, MarkOk, GroupsLess, Dropped;
    match c.pc {
      case Lookup | Reset | Insert | InsertRoom => GateGroups(db, x, c, r);
      case FindTheGroup | MakeGroup | MakeKey | MakePolicy => MakeGroups(db, x, c, r);
      case RecordKey | RecordPolicy => RecordGroups(db, x, c, r);
      case Activate | SaveResponse => CloseGroups(db, x, c, r);
      case DropPolicy | RevokeKey | DropGroup => UndoGroups(db, x, c, r);
      case FailRoom | FailOp => FailGroups(db, x, c, r);
    }
  }

  lemma GateGroups(db: Db, x: RoomId, c: Call, r: Reply)
    requires BeforeRow(c.pc) && MarkOk(db.remote, c)
    ensures var m := StepGate(db, x, c, r);
      GroupsLess(db.remote, m.db.remote, Dropped(c, r)) && MarkOk(m.db.remote, m.call)
  {
    match c.pc { case Lookup => case Reset => case Insert => case _ => }
  }

  lemma MakeGroups(db: Db, x: RoomId, c: Call, r: Reply)
    requires (c.pc.FindTheGroup? || c.pc.MakeGroup? || c.pc.MakeKey? || c.pc.MakePolicy?) && MarkOk(db.remote, c)
    ensures var m := StepMake(db, x, c, r);
      GroupsLess(db.remote, m.db.remote, Dropped(c, r)) && MarkOk(m.db.remote, m.call)
  {
    match c.pc { case FindTheGroup => case MakeGroup => case MakeKey => case _ => }
  }

  lemma RecordGroups(db: Db, x: RoomId, c: Call, r: Reply)
    requires (c.pc.RecordKey? || c.pc.RecordPolicy?) && MarkOk(db.remote, c)
    ensures var m := StepRecord(db, x, c, r);
      GroupsLess(db.remote, m.db.remote, Dropped(c, r)) && MarkOk(m.db.remote, m.call)
  {
  }

  lemma CloseGroups(db: Db, x: RoomId, c: Call, r: Reply)
    requires (c.pc.Activate? || c.pc.SaveResponse?) && MarkOk(db.remote, c)
    ensures var m := StepClose(db, x, c, r);
      GroupsLess(db.remote, m.db.remote, Dropped(c, r)) && MarkOk(m.db.remote, m.call)
  {
  }

  lemma UndoGroups(db: Db, x: RoomId, c: Call, r: Reply)
    requires (c.pc.DropPolicy? || c.pc.RevokeKey? || c.pc.DropGroup?) && MarkOk(db.remote, c)
    ensures var m := StepUndo(db, x, c, r);
      GroupsLess(db.remote, m.db.remote, Dropped(c, r)) && MarkOk(m.db.remote, m.call)
  {
    match c.pc { case DropPolicy => case RevokeKey => case _ => }
  }

  lemma FailGroups(db: Db, x: RoomId, c: Call, r: Reply)
    requires (c.pc.FailRoom? || c.pc.FailOp?) && MarkOk(db.remote, c)
    ensures var m := StepFail(db, x, c, r);
      GroupsLess(db.remote, m.db.remote, Dropped(c, r)) && MarkOk(m.db.remote, m.call)
  {
  }

  // The group that a step of Reconcile deletes.
  function Removed(b: Boot, fate: Fate): Option<nat> {
    if b.Reconciling? && b.at.BootGroup? && b.row.Some? && fate.Applied() then b.row.value.groupId else None
  }

  lemma BootGroups(db: Db, b: Boot, fate: Fate)
    requires BootOk(db, b)
    ensures GroupsLess(db.remote, StepBoot(db, b, fate).db.remote, Removed(b, fate))
  {
    match b.at {
      case Fetch => case BootPolicy => case BootRevoke =>
      case BootKey => case BootGroup => case MarkRoom => case _ =>
    }
  }

  lemma DisableGroups(db: Db, d: Disabling, fate: Fate, hit: Option<RoomId>)
    requires !d.at.Closed? && (d.at.Find? && hit.Some? ==> hit.value in db.tables.rooms)
    ensures GroupsLess(db.remote, StepDisable(db, d, fate, hit).db.remote, None)
  {
  }

  /** The group that the step deletes, if any. */
  function Deleted(s: World, a: Action): Option<nat> {
    match a
    case Advance(x, r) => if x < |s.calls| then Dropped(s.calls[x], r) else None
    case Repair(fate) => if s.phase.Repairing? then Removed(s.phase.boot, fate) else None
    case _ => None
  }

  lemma GroupsNext(s: World, a: Action)
    requires Inv(s) && Marks(s) && Enabled(s, a)
    ensures Marks(Next(s, a)) && GroupsLess(s.db.remote, Next(s, a).db.remote, Deleted(s, a))
  {
    match a
    case Advance(x, r) =>
      OwnStepGroups(s.db, x, s.calls[x], r);
      MarksStay(s.db.remote, StepCall(s.db, x, s.calls[x], r).db.remote, s.calls, Deleted(s, a));
      hide StepCall, Inv, MarkOk, GroupsLess;
    case Repair(fate) =>
      assert BootOk(s.db, s.phase.boot);
      BootGroups(s.db, s.phase.boot, fate);
      MarksStay(s.db.remote, StepBoot(s.db, s.phase.boot, fate).db.remote, s.calls, Deleted(s, a));
      hide StepBoot, Inv, MarkOk, GroupsLess;
    case AdvanceDisable(i, fate, hit) =>
      DisableGroups(s.db, s.disables[i], fate, hit);
      MarksStay(s.db.remote, StepDisable(s.db, s.disables[i], fate, hit).db.remote, s.calls, None);
      hide StepDisable, Inv, MarkOk, GroupsLess;
    case _ => CalmGroups(s, a); hide Next, Inv;
  }

  lemma CalmGroups(s: World, a: Action)
    requires Marks(s) && Enabled(s, a) && !a.Advance? && !a.Repair? && !a.AdvanceDisable?
    ensures Marks(Next(s, a)) && GroupsLess(s.db.remote, Next(s, a).db.remote, None)
  {
  }

  lemma MarksStay(a: Remote, b: Remote, calls: seq<Call>, gone: Option<nat>)
    requires GroupsLess(a, b, gone) && forall x :: 0 <= x < |calls| ==> MarkOk(a, calls[x])
    ensures forall x :: 0 <= x < |calls| ==> MarkOk(b, calls[x])
  {
  }

  lemma {:induction false} MarksAlong(w: seq<World>, acts: seq<Action>, n: nat)
    requires IsRun(w, acts) && Init(w[0]) && n < |w|
    ensures Marks(w[n])
  {
    hide Inv, Next, Enabled, IsRun;
    if n > 0 {
      RunStep(w, acts, n - 1);
      MarksAlong(w, acts, n - 1);
      RunInv(w, acts, n - 1);
      GroupsNext(w[n - 1], acts[n - 1]);
    }
  }

  // ---------------------------------------------------------------- who deletes such a group

  /** The compensation of a Create that found group g and did not make it. */
  predicate Sweeps(s: World, a: Action, g: nat) {
    && a.Advance? && a.reply.fate.Applied() && a.x < |s.calls|
    && var c := s.calls[a.x]; c.pc.DropGroup? && c.sweep && !c.made && c.group == Some(g)
  }

  /** Reconcile, whose row names group g. */
  predicate Repairs(s: World, a: Action, g: nat) {
    && a.Repair? && a.fate.Applied() && s.phase.Repairing? && s.phase.boot.Reconciling?
    && var b := s.phase.boot; b.at.BootGroup? && b.row.Some? && b.row.value.groupId == Some(g)
  }

  /** On every run, a live group that somebody else made is deleted by exactly those two. */
  lemma ForeignGroupDiesIff(w: seq<World>, acts: seq<Action>, n: nat, g: nat)
    requires IsRun(w, acts) && Init(w[0]) && n < |acts|
    requires g < |w[n].db.remote.groups| && w[n].db.remote.groups[g].live && !w[n].db.remote.groups[g].made
    ensures g < |w[n + 1].db.remote.groups|
    ensures !w[n + 1].db.remote.groups[g].live <==> Sweeps(w[n], acts[n], g) || Repairs(w[n], acts[n], g)
  {
    RunStep(w, acts, n);
    RunInv(w, acts, n);
    MarksAlong(w, acts, n);
    GroupsNext(w[n], acts[n]);
    if acts[n].Advance? { assert MarkOk(w[n].db.remote, w[n].calls[acts[n].x]); }
    hide IsRun, Init, Inv, Next;
  }
}
