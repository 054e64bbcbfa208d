/** What a Reconcile that meets no error achieves: everything recorded for an interrupted
    Create is gone. */
module ProvisioningRepair {
  import opened Outcomes
  import opened RoomTables
  import opened NetBirdState
  import opened Provisioning
  import opened ProvisioningInvariant
  import opened ProvisioningSafety
  import opened ProvisioningResources
  import opened ProvisioningIdempotence
  import opened ProvisioningStuck

  predicate GroupGone(rm: Remote, id: Option<nat>) { rm.HasGroup(id) ==> !rm.groups[id.value].live }

  predicate KeyGone(rm: Remote, id: Option<nat>) { rm.HasKey(id) ==> rm.keys[id.value].state.Deleted? }

  predicate PolicyGone(rm: Remote, id: Option<nat>) { rm.HasPolicy(id) ==> !rm.policies[id.value].live }

  /** The record is in error, and if there was a room, it is in error too and nothing its
      row names is left. */
  predicate Repaired(db: Db, p: Pending) {
    && p.key in db.tables.ops && db.tables.ops[p.key].status.Error?
    && (p.roomId in db.tables.rooms ==>
          var row := db.tables.rooms[p.roomId];
          row.status.Error? && GroupGone(db.remote, row.groupId) && KeyGone(db.remote, row.setupKeyId)
          && PolicyGone(db.remote, row.policyId))
  }

  /** How far the row under repair has got. */
  predicate HalfRepaired(db: Db, b: Boot)
    requires Working(b)
  {
    var x, at := b.todo[0].roomId, b.at;
    && (Touching(at) ==> b.row.Some? && x in db.tables.rooms)
    && (x in db.tables.rooms && !at.Fetch? ==>
          var row := db.tables.rooms[x];
          && (Touching(at) ==>
                && b.row.value.groupId == row.groupId && b.row.value.setupKeyId == row.setupKeyId
                && b.row.value.policyId == row.policyId)
          && (!at.BootPolicy? ==> PolicyGone(db.remote, row.policyId))
          && (at.BootGroup? || at.MarkRoom? || at.MarkOp? ==> KeyGone(db.remote, row.setupKeyId))
          && (at.MarkRoom? || at.MarkOp? ==> GroupGone(db.remote, row.groupId))
          && (at.MarkOp? ==> row.status.Error?))
  }

  lemma StepRepairs(db: Db, b: Boot)
    requires BootOk(db, b) && HalfRepaired(db, b)
    ensures var m := StepBoot(db, b, Done);
      && (Working(m.boot) ==> HalfRepaired(m.db, m.boot))
      && (if b.at.MarkOp? then m.boot == Rest(b.todo[1..]) && Repaired(m.db, b.todo[0])
          else m.boot.Reconciling? && m.boot.todo == b.todo)
  {
    match b.at {
      case Fetch => case BootPolicy => case BootRevoke =>
      case BootKey => case BootGroup => case MarkRoom => case _ =>
    }
  }

  lemma RepairedStays(db: Db, b: Boot, p: Pending)
    requires BootOk(db, b) && Repaired(db, p) && p.key != b.todo[0].key
    ensures Repaired(StepBoot(db, b, Done).db, p)
  {
    BootLocal(db, b, Done);
    BootDies(db, b, Done);
    if p.roomId in db.tables.rooms { BootMarksError(db, b, p.roomId); }
    hide StepBoot, BootOk, Confined;
  }

  lemma BootMarksError(db: Db, b: Boot, x: RoomId)
    requires BootOk(db, b) && x in db.tables.rooms && db.tables.rooms[x].status.Error?
    ensures var rooms := StepBoot(db, b, Done).db.tables.rooms; x in rooms && rooms[x].status.Error?
  {
    match b.at {
      case Fetch => case BootPolicy => case BootRevoke =>
      case BootKey => case BootGroup => case MarkRoom => case _ =>
    }
  }

  function Left(s: World): nat { if s.phase.Repairing? && Working(s.phase.boot) then |s.phase.boot.todo| else 0 }

  /** Reconcile over the listing todo, without an error so far. */
  ghost predicate OnTrack(s: World, todo: seq<Pending>) {
    && Left(s) <= |todo|
    && (s.phase.Repairing? ==>
          Working(s.phase.boot) && s.phase.boot.todo == todo[|todo| - Left(s)..] && HalfRepaired(s.db, s.phase.boot))
    && (forall e :: 0 <= e < |todo| - Left(s) ==> Repaired(s.db, todo[e]))
  }

  lemma RepairIs(s: World, fate: Fate)
    requires Inv(s) && Enabled(s, Repair(fate))
    ensures s.phase.Repairing? && BootOk(s.db, s.phase.boot)
    ensures var b := s.phase.boot; !b.at.Fetch? && !b.at.MarkOp? ==> b.row.Some?
    ensures var m, t := StepBoot(s.db, s.phase.boot, fate), Next(s, Repair(fate));
      t.db == m.db && t.phase == AfterBoot(m.boot)
  {
    hide StepBoot;
  }

  lemma StaysOnTrack(s: World, todo: seq<Pending>)
    requires Inv(s) && Enabled(s, Repair(Done)) && OnTrack(s, todo)
    requires forall i, j :: 0 <= i < j < |todo| ==> todo[i].key != todo[j].key
    ensures OnTrack(Next(s, Repair(Done)), todo)
  {
    hide Inv, BootOk, HalfRepaired, Repaired, StepBoot, Next, Enabled;
    RepairIs(s, Done);
    var b, d := s.phase.boot, |todo| - Left(s);
    var m := StepBoot(s.db, b, Done);
    assert b.todo[0] == todo[d];
    StepRepairs(s.db, b);
    forall e | 0 <= e < d ensures Repaired(m.db, todo[e]) { RepairedStays(s.db, b, todo[e]); }
  }

  // The listing is the first step of a Reconcile, and changes nothing.
  lemma Listed(w: seq<World>, acts: seq<Action>, n: nat)
    requires IsRun(w, acts) && n + 1 < |w| && acts[n].ListPending?
    ensures w[n + 1].db == w[n].db && IsListing(w[n].db.tables.ops, acts[n].todo)
    ensures forall i, j :: 0 <= i < j < |acts[n].todo| ==> acts[n].todo[i].key != acts[n].todo[j].key
    ensures acts[n].fate.Done? ==> OnTrack(w[n + 1], acts[n].todo)
  {
    RunStep(w, acts, n);
    hide IsRun;
  }

  lemma {:induction false} RepairAlong(w: seq<World>, acts: seq<Action>, n: nat, m: nat, todo: seq<Pending>)
    requires IsRun(w, acts) && Init(w[0]) && n < m < |w| && acts[n] == ListPending(Done, todo)
    requires forall i :: n < i < m ==> acts[i] == Repair(Done)
    ensures OnTrack(w[m], todo)
  {
    hide Inv, Next, Init, IsRun, OnTrack, Enabled, IsListing;
    Listed(w, acts, n);
    if m > n + 1 {
      RunStep(w, acts, m - 1);
      RepairAlong(w, acts, n, m - 1, todo);
      RunInv(w, acts, m - 1);
      StaysOnTrack(w[m - 1], todo);
    }
  }

  /** A Reconcile that lists the records and then meets no error leaves every record that
      was still creating in error, its room in error, and nothing the room's row names:
      no live policy or group, no undeleted setup key. */
  lemma ReconcileCleansUp(w: seq<World>, acts: seq<Action>, n: nat, m: nat, todo: seq<Pending>)
    requires IsRun(w, acts) && Init(w[0]) && n < m < |w| && acts[n] == ListPending(Done, todo)
    requires (forall i :: n < i < m ==> acts[i] == Repair(Done)) && w[m].phase.Serving?
    ensures forall k :: k in w[n].db.tables.ops && w[n].db.tables.ops[k].status.Creating? ==>
              Repaired(w[m].db, Pending(k, w[n].db.tables.ops[k].roomId))
  {
    RepairAlong(w, acts, n, m, todo);
    assert Enabled(w[n], acts[n]);
    forall k | k in w[n].db.tables.ops && w[n].db.tables.ops[k].status.Creating?
      ensures Repaired(w[m].db, Pending(k, w[n].db.tables.ops[k].roomId))
    {
      var i :| 0 <= i < |todo| && todo[i].key == k;
      assert Repaired(w[m].db, todo[i]);
    }
  }

  // ---------------------------------------------------------------- which active rooms

  predicate NamedBy(ops: map<IdemKey, Operation>, x: RoomId) {
    exists k :: k in ops && ops[k].status.Creating? && ops[k].roomId == x
  }

  lemma UnnamedStep(s: World, x: RoomId)
    requires Inv(s) && Enabled(s, Repair(Done)) && s.phase.boot.todo[0].roomId != x
    ensures Untouched(s.db, Next(s, Repair(Done)).db, x)
  {
    var b := s.phase.boot;
    assert BootOk(s.db, b);
    hide Inv;
    BootLocal(s.db, b, Done);
    ConfinedElsewhere(s.db, StepBoot(s.db, b, Done).db, b.todo[0].roomId, x);
    hide StepBoot;
  }

  lemma RowStep(s: World, x: RoomId)
    requires Inv(s) && Enabled(s, Repair(Done)) && x in s.db.tables.rooms
    ensures x in Next(s, Repair(Done)).db.tables.rooms
  {
    assert BootOk(s.db, s.phase.boot);
    hide Inv;
    BootLocal(s.db, s.phase.boot, Done);
    hide StepBoot;
  }

  lemma UntouchedTwice(a: Db, b: Db, c: Db, x: RoomId)
    requires Untouched(a, b, x) && Untouched(b, c, x)
    ensures Untouched(a, c, x)
  {
  }

  lemma UntouchedSame(a: Db, x: RoomId)
    ensures Untouched(a, a, x)
  {
  }

  // While Reconcile is on track, the record it works on comes from the listing.
  lemma HeadOfListing(s: World, todo: seq<Pending>)
    requires OnTrack(s, todo) && Enabled(s, Repair(Done))
    ensures s.phase.boot.todo[0] in todo
  {
    assert s.phase.boot.todo[0] == todo[|todo| - Left(s)];
  }

  lemma {:induction false} UnnamedAlong(w: seq<World>, acts: seq<Action>, n: nat, m: nat, todo: seq<Pending>, x: RoomId)
    requires IsRun(w, acts) && Init(w[0]) && n < m < |w| && acts[n] == ListPending(Done, todo)
    requires forall i :: n < i < m ==> acts[i] == Repair(Done)
    requires !NamedBy(w[n].db.tables.ops, x)
    ensures Untouched(w[n].db, w[m].db, x)
  {
    hide Inv, OnTrack, Init, Untouched, Next, IsRun, Enabled;
    Listed(w, acts, n);
    if m == n + 1 {
      UntouchedSame(w[n].db, x);
    } else {
      RunStep(w, acts, m - 1);
      UnnamedAlong(w, acts, n, m - 1, todo, x);
      RepairAlong(w, acts, n, m - 1, todo);
      RunInv(w, acts, m - 1);
      HeadOfListing(w[m - 1], todo);
      UnnamedStep(w[m - 1], x);
      UntouchedTwice(w[n].db, w[m - 1].db, w[m].db, x);
    }
  }

  /** The rooms a Reconcile takes down: an active room is left alone exactly when no
      record still creating names it, whatever its own status says. */
  lemma ReconcileSparesExactly(w: seq<World>, acts: seq<Action>, n: nat, m: nat, todo: seq<Pending>, x: RoomId)
    requires IsRun(w, acts) && Init(w[0]) && n < m < |w| && acts[n] == ListPending(Done, todo)
    requires (forall i :: n < i < m ==> acts[i] == Repair(Done)) && w[m].phase.Serving?
    requires Joinable(w[n], x)
    ensures Joinable(w[m], x) <==> !NamedBy(w[n].db.tables.ops, x)
    ensures Joinable(w[m], x) ==> Untouched(w[n].db, w[m].db, x)
  {
    ReconcileCleansUp(w, acts, n, m, todo);
    if !NamedBy(w[n].db.tables.ops, x) {
      UnnamedAlong(w, acts, n, m, todo, x);
    } else {
      var k :| k in w[n].db.tables.ops && w[n].db.tables.ops[k].status.Creating? && w[n].db.tables.ops[k].roomId == x;
      RowsStay(w, acts, n, m, x);
      assert Repaired(w[m].db, Pending(k, x));
    }
    hide IsRun, Init;
  }

  lemma {:induction false} RowsStay(w: seq<World>, acts: seq<Action>, n: nat, m: nat, x: RoomId)
    requires IsRun(w, acts) && Init(w[0]) && n < m < |w| && acts[n].ListPending?
    requires forall i :: n < i < m ==> acts[i] == Repair(Done)
    requires x in w[n].db.tables.rooms
    ensures x in w[m].db.tables.rooms
  {
    hide Inv, Init, Next, IsRun, Enabled, IsListing, OnTrack;
    Listed(w, acts, n);
    if m > n + 1 {
      RunStep(w, acts, m - 1);
      RowsStay(w, acts, n, m - 1, x);
      RunInv(w, acts, m - 1);
      RowStep(w[m - 1], x);
    }
  }

  // ---------------------------------------------------------------- which interrupted rooms

  /** Nothing the room's row names is left. */
  predicate Cleared(db: Db, x: RoomId) {
    x in db.tables.rooms ==>
      var row := db.tables.rooms[x];
      GroupGone(db.remote, row.groupId) && KeyGone(db.remote, row.setupKeyId) && PolicyGone(db.remote, row.policyId)
  }

  lemma UntouchedCleared(a: Db, b: Db, x: RoomId)
    requires Untouched(a, b, x)
    requires x in a.tables.rooms ==>
      var row := a.tables.rooms[x]; OwnsIds(a.remote, x, row.groupId, row.setupKeyId, row.policyId)
    ensures Cleared(b, x) <==> Cleared(a, x)
  {
  }

  /** What an error-free Reconcile takes back: everything the row of a room names is gone
      afterwards if and only if a record still creating names the room, or nothing the row
      names was left before. A row that no such record names is never looked at. */
  lemma ReconcileClearsExactly(w: seq<World>, acts: seq<Action>, n: nat, m: nat, todo: seq<Pending>, x: RoomId)
    requires IsRun(w, acts) && Init(w[0]) && n < m < |w| && acts[n] == ListPending(Done, todo)
    requires (forall i :: n < i < m ==> acts[i] == Repair(Done)) && w[m].phase.Serving?
    ensures Cleared(w[m].db, x) <==> NamedBy(w[n].db.tables.ops, x) || Cleared(w[n].db, x)
  {
    if NamedBy(w[n].db.tables.ops, x) {
      var k :| k in w[n].db.tables.ops && w[n].db.tables.ops[k].status.Creating? && w[n].db.tables.ops[k].roomId == x;
      ReconcileCleansUp(w, acts, n, m, todo);
      assert Repaired(w[m].db, Pending(k, x));
    } else {
      UnnamedAlong(w, acts, n, m, todo, x);
      RunInv(w, acts, n);
      if x in w[n].db.tables.rooms { RowOwns(w[n], x); }
      UntouchedCleared(w[n].db, w[m].db, x);
    }
    hide IsRun, Init, Inv, Untouched;
  }

  /** A room created without an idempotency key has no record, so no Reconcile takes anything
      of it back. */
  lemma UnkeyedNeverRepaired(w: seq<World>, acts: seq<Action>, n: nat, m: nat, todo: seq<Pending>, x: RoomId)
    requires IsRun(w, acts) && Init(w[0]) && n < m < |w| && acts[n] == ListPending(Done, todo)
    requires (forall i :: n < i < m ==> acts[i] == Repair(Done)) && w[m].phase.Serving?
    requires x < |w[n].calls| && w[n].calls[x].key == NO_KEY
    ensures Cleared(w[m].db, x) <==> Cleared(w[n].db, x)
  {
    ReconcileClearsExactly(w, acts, n, m, todo, x);
    RunInv(w, acts, n);
    NoRecordWithoutKey(w[n], x);
    hide IsRun, Init, Inv, Cleared;
  }

  lemma NoRecordWithoutKey(s: World, x: RoomId)
    requires Inv(s) && x < |s.calls| && s.calls[x].key == NO_KEY
    ensures !NamedBy(s.db.tables.ops, x)
  {
    forall k | k in s.db.tables.ops ensures s.db.tables.ops[k].roomId != x {
      assert OpOk(s.calls, k, s.db.tables.ops[k]);
    }
  }

  lemma RowOwns(s: World, x: RoomId)
    requires Inv(s) && x in s.db.tables.rooms
    ensures var row := s.db.tables.rooms[x]; OwnsIds(s.db.remote, x, row.groupId, row.setupKeyId, row.policyId)
  {
    assert CallOk(s.db, s.targets, x, s.calls[x]) && RowOk(s.db, s.targets, x, s.calls[x]);
  }

  /** Wherever a keyed Create past the gate came to an end without saving its response, by a
      crash or by an error: as long as its key was never in error, the next error-free
      Reconcile leaves its record and its room in error and nothing its row names. */
  lemma InterruptedFreshKey(w: seq<World>, acts: seq<Action>, n: nat, m: nat, todo: seq<Pending>, x: RoomId)
    requires IsRun(w, acts) && Init(w[0]) && n < m < |w| && acts[n] == ListPending(Done, todo)
    requires (forall i :: n < i < m ==> acts[i] == Repair(Done)) && w[m].phase.Serving?
    requires x < |w[n].calls| && w[n].calls[x].gated && !w[n].calls[x].saved
    requires w[n].calls[x].key != NO_KEY && w[n].calls[x].key !in w[n].errored
    ensures Repaired(w[m].db, Pending(w[n].calls[x].key, x))
  {
    GateAlong(w, acts, n);
    RunInv(w, acts, n);
    StillCreating(w[n], x);
    ReconcileCleansUp(w, acts, n, m, todo);
    hide IsRun, Init, Inv, GateOk, Repaired;
  }

  // The record of a fresh key goes on naming the call that passed, and is not finished.
  lemma StillCreating(s: World, x: RoomId)
    requires Inv(s) && GateOk(s) && x < |s.calls| && s.calls[x].gated && !s.calls[x].saved
    requires s.calls[x].key != NO_KEY && s.calls[x].key !in s.errored
    ensures PendingFor(s.db.tables.ops, s.calls[x].key, x)
  {
    var k := s.calls[x].key;
    assert GateCallOk(s.db.tables.ops, s.errored, x, s.calls[x]);
    var op := s.db.tables.ops[k];
    assert OpOk(s.calls, k, op);
    assert k !in ErrorKeys(s.db.tables.ops);
    if op.status.Active? { OnlySaved(s, x, op.response.clear.roomId); }
  }

  lemma OnlySaved(s: World, x: RoomId, z: RoomId)
    requires GateOk(s) && x < |s.calls| && z < |s.calls| && s.calls[x].gated && s.calls[z].saved
    requires s.calls[x].key == s.calls[z].key != NO_KEY && s.calls[x].key !in s.errored
    ensures x == z
  {
    assert GateCallOk(s.db.tables.ops, s.errored, x, s.calls[x]);
    assert GateCallOk(s.db.tables.ops, s.errored, z, s.calls[z]);
  }

  /** The same for a key that has been in error, if no two calls were ever about to reset its
      record at once: however the call left its record in progress, the first Reconcile that
      gets to it repairs it if it meets no error, whatever happened in between. */
  lemma InterruptedRetry(w: seq<World>, acts: seq<Action>, c: nat, n: nat, m: nat, todo: seq<Pending>, x: RoomId)
    requires IsRun(w, acts) && Init(w[0]) && c < n < m < |w| && acts[n] == ListPending(Done, todo)
    requires (forall i :: n < i < m ==> acts[i] == Repair(Done)) && w[m].phase.Serving?
    requires Abandons(w[c], acts[c], x) && w[c].calls[x].key != NO_KEY
    requires forall i :: 0 <= i <= c ==> OneReset(w[i], w[c].calls[x].key)
    requires forall i :: c < i < n ==> !Frees(w[i], acts[i], w[c].calls[x].key)
    ensures Repaired(w[m].db, Pending(w[c].calls[x].key, x))
  {
    AbandonedStaysStuck(w, acts, c, n, x);
    ReconcileCleansUp(w, acts, n, m, todo);
    hide IsRun, Init, OneReset, Abandons, Frees, Repaired;
  }
}
