/** Concrete runs that mark where the guarantees end.
    - Two retries of a failed key overlap in their lookups: two rooms for one key.
    - A crash between service.go:173 and 183 leaves an active room that Reconcile will take
      down, although the comment at service.go:204-206 says active rooms are never modified.
    - If the room's status then cannot be written, the server serves with that room active
      and its group, key and policy deleted.
    - Two such retries and a crash leave a recorded setup key that Reconcile never looks at;
      so does a crash of a Create without a key, which has no record.
    - A group that somebody else gave the name of a room is deleted by a compensation.
    - A lost reply of CreateSetupKey leaves a key that no compensation can name. */
module ProvisioningWitnesses {
  import opened Outcomes
  import opened RoomTables
  import opened NetBirdState
  import opened Provisioning
  import opened ProvisioningInvariant
  import opened ProvisioningSafety
  import opened ProvisioningIdempotence
  import opened ProvisioningResources
  import opened ProvisioningLosses
  import opened ProvisioningRepair
  import opened ProvisioningRetries
  import opened ProvisioningLiving
  import opened SoloRuns

  const KEY: IdemKey := 1
  const OK := Reply(Done, 7)

  lemma Served() returns (w: seq<World>, acts: seq<Action>)
    ensures IsRun(w, acts) && Init(w[0])
    ensures w[|acts|] == World(Db(Tables(map[], map[]), Remote([], [], [])), [NewCall(KEY, 10)], [], Serving, {}, {})
  {
    var s := World(Db(Tables(map[], map[]), Remote([], [], [])), [], [], Starting, {}, {});
    w, acts := [s], [];
    w, acts, s := Act(w, acts, ListPending(Done, []));
    w, acts, s := Act(w, acts, Arrive(KEY, 10));
  }

  // A first call on a new key, up to its row.
  lemma FirstThree(db: Db, x: RoomId)
    requires db.tables == Tables(map[], map[])
    ensures var m := Solo(db, x, NewCall(KEY, 10), [OK, OK, OK]);
      && m.db.remote == db.remote && m.call == NewCall(KEY, 10).(pc := FindTheGroup, gated := true)
      && m.db.tables.rooms == map[x := Room(Digest(10), None, None, Blank, None, Creating)]
      && m.db.tables.ops == map[KEY := Operation(x, Blank, Creating)]
  {
    var c := NewCall(KEY, 10);
    var m1 := StepCall(db, x, c, OK);
    var m2 := StepCall(m1.db, x, m1.call, OK);
    SoloThree(db, x, c, OK, OK, OK);
  }

  // ---------------------------------------------------------------- two rooms for one key

  lemma FailsAtGroups(db: Db, x: RoomId, c: Call)
    requires c.pc.FindTheGroup? && c.key == KEY && x in db.tables.rooms && KEY in db.tables.ops
    ensures var t := Solo(db, x, c, [Reply(Refused, 0), OK, OK]).db;
      && t.remote == db.remote && t.tables.rooms.Keys == db.tables.rooms.Keys
      && t.tables.rooms[x].codeHash == db.tables.rooms[x].codeHash
      && t.tables.ops == db.tables.ops[KEY := Operation(db.tables.ops[KEY].roomId, Blank, Error)]
  {
    var bad := Reply(Refused, 0);
    var m1 := StepCall(db, x, c, bad);
    var m2 := StepCall(m1.db, x, m1.call, OK);
    SoloThree(db, x, c, bad, OK, OK);
  }

  // A first call on the key fails at its first NetBird call and says so in its record.
  lemma FirstFails() returns (w: seq<World>, acts: seq<Action>)
    ensures IsRun(w, acts) && Init(w[0])
    ensures var s := w[|acts|];
      && s.phase.Serving? && |s.calls| == 1
      && s.db.tables.rooms.Keys == {0} && s.db.tables.rooms[0].codeHash == Digest(10)
      && s.db.tables.ops == map[KEY := Operation(0, Blank, Error)] && s.db.remote == Remote([], [], [])
  {
    w, acts := Served();
    var s := w[|acts|];
    var v, more := SoloIsRun(s, 0, [OK, OK, OK] + [Reply(Refused, 0), OK, OK]);
    hide Solo, StepCall, Next, Enabled;
    SoloThen(s.db, 0, s.calls[0], [OK, OK, OK], [Reply(Refused, 0), OK, OK]);
    FirstThree(s.db, 0);
    var m := Solo(s.db, 0, s.calls[0], [OK, OK, OK]);
    FailsAtGroups(m.db, 0, m.call);
    Append(w, acts, v, more);
    w, acts := w[..|acts|] + v, acts + more;
  }

  // Then two more calls look the record up, and both are told to retry.
  lemma BothToldToRetry() returns (w: seq<World>, acts: seq<Action>)
    ensures IsRun(w, acts) && Init(w[0])
    ensures var s := w[|acts|];
      && |s.calls| == 3 && s.db.tables.rooms.Keys == {0} && s.db.tables.rooms[0].codeHash == Digest(10)
      && s.db.tables.ops == map[KEY := Operation(0, Blank, Error)] && s.db.remote == Remote([], [], [])
      && (forall x :: x == 1 || x == 2 ==> s.calls[x] == NewCall(KEY, 10 + x).(pc := Reset, retry := true))
  {
    w, acts := FirstFails();
    var s := w[|acts|];
    w, acts, s := Act(w, acts, Arrive(KEY, 11));
    w, acts, s := Act(w, acts, Arrive(KEY, 12));
    w, acts, s := Act(w, acts, Advance(1, OK));
    w, acts, s := Act(w, acts, Advance(2, OK));
    hide Init;
  }

  /** Two retries of a failed key overlap in their lookups only, and both return: two
      different rooms, both active, both good to join. */
  lemma TwoRetriesTwoRooms() returns (w: seq<World>, acts: seq<Action>, r1: Response, r2: Response)
    ensures IsRun(w, acts) && Init(w[0])
    ensures var s := w[|acts|];
      && Returned(s.calls, 1, r1) && Returned(s.calls, 2, r2) && r1.roomId != r2.roomId
      && ActiveIn(s.db, r1.roomId) && ActiveIn(s.db, r2.roomId)
  {
    hide Solo, StepCall, Next, Enabled, Init;
    w, acts := BothToldToRetry();
    w, acts, r1, r2 := TwoResetsTwoRooms(w, acts, 1, 2, 7);
  }

  // ---------------------------------------------------------------- an active room under repair

  lemma Activated(db: Db, x: RoomId, c: Call)
    requires c.pc.Activate? && x in db.tables.rooms && c.key != NO_KEY
    ensures var m := Solo(db, x, c, [OK]);
      && x in m.db.tables.rooms && m.db.tables.rooms[x].status.Active? && m.db.tables.ops == db.tables.ops
  {
    SoloOne(db, x, c, OK);
  }

  lemma UpToActive(db: Db, x: RoomId)
    requires db == Db(Tables(map[], map[]), Remote([], [], []))
    ensures var t := Solo(db, x, NewCall(KEY, 10), [OK, OK, OK] + ([OK, OK, OK] + ([OK, OK, OK] + [OK]))).db.tables;
      x in t.rooms && t.rooms[x].status.Active? && t.ops == map[KEY := Operation(x, Blank, Creating)]
  {
    var c := NewCall(KEY, 10);
    FirstThree(db, x);
    hide Solo, StepCall;
    SoloThen(db, x, c, [OK, OK, OK], [OK, OK, OK] + ([OK, OK, OK] + [OK]));
    var m1 := Solo(db, x, c, [OK, OK, OK]);
    Makes(m1.db, x, m1.call, OK);
    SoloThen(m1.db, x, m1.call, [OK, OK, OK], [OK, OK, OK] + [OK]);
    var m2 := Solo(m1.db, x, m1.call, [OK, OK, OK]);
    Records(m2.db, x, m2.call, OK);
    SoloThen(m2.db, x, m2.call, [OK, OK, OK], [OK]);
    var m3 := Solo(m2.db, x, m2.call, [OK, OK, OK]);
    Activated(m3.db, x, m3.call);
  }

  /** The process dies between activating the room and saving the response: the next
      Reconcile finds an active room that a record still creating names, the one case
      ReconcileSparesExactly says it does not spare. */
  lemma ActiveRoomUnderRepair() returns (w: seq<World>, acts: seq<Action>)
    ensures IsRun(w, acts) && Init(w[0])
    ensures var s := w[|acts|]; s.phase.Starting? && Joinable(s, 0) && NamedBy(s.db.tables.ops, 0)
  {
    w, acts := Served();
    var s := w[|acts|];
    UpToActive(s.db, 0);
    var v, more := SoloIsRun(s, 0, [OK, OK, OK] + ([OK, OK, OK] + ([OK, OK, OK] + [OK])));
    hide Solo, StepCall;
    Append(w, acts, v, more);
    w, acts := w[..|acts|] + v, acts + more;
    w, acts, s := Act(w, acts, Crash);
    assert KEY in s.db.tables.ops;
  }

  /** The same run goes on: Reconcile deletes the policy, the key and the group of that room
      and then cannot write its status; the server serves all the same, and Join hands out
      the deleted key. */
  lemma HollowRoomServed() returns (w: seq<World>, acts: seq<Action>)
    ensures IsRun(w, acts) && Init(w[0])
    ensures var s := w[|acts|]; s.phase.Serving? && Joinable(s, 0) && Hollow(s.db, 0)
  {
    hide Init, Next, Enabled, Hollow;
    w, acts := ActiveRoomUnderRepair();
    var ops := w[|acts|].db.tables.ops;
    var k :| k in ops && ops[k].status.Creating? && ops[k].roomId == 0;
    w, acts := HalfRepairHollows(w, acts, k, 0);
  }

  // ---------------------------------------------------------------- a recorded key nobody repairs

  lemma UpToRecordedKey(db: Db, x: RoomId, c: Call)
    requires c.pc.InsertRoom? && db.remote == Remote([], [], []) && !db.tables.Clashes(x, Digest(c.code))
    ensures var m := Solo(db, x, c, [OK] + ([OK, OK, OK] + [OK]));
      && m.db.tables.ops == db.tables.ops && m.call.key == c.key && m.call.gated == c.gated && InFlight(m.call.pc)
      && x in m.db.tables.rooms && m.db.tables.rooms[x].setupKeyId == Some(0)
      && m.db.remote.keys == [SetupKey(x, 7, Valid)]
  {
    SoloOne(db, x, c, OK);
    var m1 := StepCall(db, x, c, OK);
    assert m1.call == c.(pc := FindTheGroup) && m1.db.remote == db.remote && m1.db.tables.ops == db.tables.ops;
    hide StepCall;
    SoloThen(db, x, c, [OK], [OK, OK, OK] + [OK]);
    SoloThen(m1.db, x, m1.call, [OK, OK, OK], [OK]);
    Makes(m1.db, x, m1.call, OK);
    var m2 := Solo(m1.db, x, m1.call, [OK, OK, OK]);
    hide Solo;
    KeyRecorded(m2.db, x, m2.call);
  }

  lemma KeyRecorded(db: Db, x: RoomId, c: Call)
    requires c.pc.RecordKey? && x in db.tables.rooms
    ensures var m := Solo(db, x, c, [OK]);
      && m.db.tables.ops == db.tables.ops && m.db.remote == db.remote && m.call == c.(pc := MakePolicy)
      && x in m.db.tables.rooms && m.db.tables.rooms[x].setupKeyId == c.keyId
  {
    SoloOne(db, x, c, OK);
  }

  // Call 1 has claimed the record when call 2 resets it.
  lemma ClaimedTwice() returns (w: seq<World>, acts: seq<Action>)
    ensures IsRun(w, acts) && Init(w[0])
    ensures var s := w[|acts|];
      && |s.calls| == 3 && s.db.tables.rooms.Keys == {0} && s.db.tables.rooms[0].codeHash == Digest(10)
      && s.db.tables.ops == map[KEY := Operation(2, Blank, Creating)] && s.db.remote == Remote([], [], [])
      && s.calls[1] == NewCall(KEY, 11).(pc := InsertRoom, retry := true, gated := true)
  {
    w, acts := BothToldToRetry();
    var s := w[|acts|];
    hide Init;
    w, acts, s := Act(w, acts, Advance(1, OK));
    w, acts, s := Act(w, acts, Advance(1, OK));
    w, acts, s := Act(w, acts, Advance(2, OK));
  }

  /** Two retries claim one record, the later one wins it, and the process dies while the
      earlier one is at work: its row records a valid setup key, no record names its room,
      and, by ReconcileClearsExactly, no Reconcile takes the key back. */
  lemma OrphanedByCrash() returns (w: seq<World>, acts: seq<Action>)
    ensures IsRun(w, acts) && Init(w[0])
    ensures var s := w[|acts|];
      && s.phase.Starting? && 1 < |s.calls| && s.calls[1].pc.Crashed? && s.calls[1].gated && s.calls[1].key == KEY
      && 1 in s.db.tables.rooms && s.db.tables.rooms[1].setupKeyId == Some(0)
      && s.db.remote.keys == [SetupKey(1, 7, Valid)]
      && !NamedBy(s.db.tables.ops, 1) && !Cleared(s.db, 1)
  {
    w, acts := ClaimedTwice();
    var s := w[|acts|];
    UpToRecordedKey(s.db, 1, s.calls[1]);
    var v, more := SoloIsRun(s, 1, [OK] + ([OK, OK, OK] + [OK]));
    hide Solo, StepCall, Init;
    Append(w, acts, v, more);
    w, acts := w[..|acts|] + v, acts + more;
    w, acts, s := Act(w, acts, Crash);
  }

  /** A Create without a key records its setup key, and the process dies: no two calls were
      ever in each other's way, no record names the room, and no Reconcile takes it back. */
  lemma UnkeyedOrphan() returns (w: seq<World>, acts: seq<Action>)
    ensures IsRun(w, acts) && Init(w[0])
    ensures var s := w[|acts|];
      && s.phase.Starting? && |s.calls| == 1 && s.calls[0].pc.Crashed? && s.calls[0].key == NO_KEY
      && 0 in s.db.tables.rooms && s.db.tables.rooms[0].setupKeyId == Some(0)
      && s.db.remote.keys == [SetupKey(0, 7, Valid)]
      && !NamedBy(s.db.tables.ops, 0) && !Cleared(s.db, 0)
  {
    var s := World(Db(Tables(map[], map[]), Remote([], [], [])), [], [], Starting, {}, {});
    w, acts := [s], [];
    w, acts, s := Act(w, acts, ListPending(Done, []));
    w, acts, s := Act(w, acts, Arrive(NO_KEY, 10));
    UpToRecordedKey(s.db, 0, s.calls[0]);
    var v, more := SoloIsRun(s, 0, [OK] + ([OK, OK, OK] + [OK]));
    hide Solo, StepCall, Init;
    Append(w, acts, v, more);
    w, acts := w[..|acts|] + v, acts + more;
    w, acts, s := Act(w, acts, Crash);
  }

  // ---------------------------------------------------------------- somebody else's group

  // It finds the group, makes a key and a policy, and cannot record the policy.
  lemma TakesTheGroup(db: Db, x: RoomId, c: Call)
    requires c.pc.FindTheGroup? && !c.made && x in db.tables.rooms
    requires db.remote == Remote([Group(x, false, true)], [], [])
    ensures var m := Solo(db, x, c, [OK, OK, OK] + [OK, Reply(Refused, 0), OK]);
      && m.db.remote.groups == db.remote.groups
      && m.call.pc.RevokeKey? && m.call.sweep && !m.call.made && m.call.group == Some(0)
  {
    var bad := Reply(Refused, 0);
    var m1 := StepCall(db, x, c, OK);
    assert m1.db == db && m1.call == c.(pc := MakeKey, group := Some(0));
    var m2 := StepCall(m1.db, x, m1.call, OK);
    assert m2.call == c.(pc := RecordKey, group := Some(0), keyId := Some(0), secret := 7);
    var m3 := StepCall(m2.db, x, m2.call, OK);
    assert m3.call == m2.call.(pc := MakePolicy) && m3.db.remote == m2.db.remote;
    SoloThree(db, x, c, OK, OK, OK);
    SoloThen(db, x, c, [OK, OK, OK], [OK, bad, OK]);
    hide Solo;
    CannotRecord(m3.db, x, m3.call);
  }

  lemma CannotRecord(db: Db, x: RoomId, c: Call)
    requires c.pc.MakePolicy?
    ensures var m := Solo(db, x, c, [OK, Reply(Refused, 0), OK]);
      && m.db.remote.groups == db.remote.groups
      && m.call.pc.RevokeKey? && m.call.sweep && m.call.made == c.made && m.call.group == c.group
  {
    var bad := Reply(Refused, 0);
    var m1 := StepCall(db, x, c, OK);
    var m2 := StepCall(m1.db, x, m1.call, bad);
    SoloThree(db, x, c, OK, bad, OK);
  }

  lemma RevokesAndDrops(db: Db, x: RoomId, c: Call)
    requires c.pc.RevokeKey? && c.sweep && c.group == Some(0) && |db.remote.groups| == 1
    ensures var m := Solo(db, x, c, [OK, OK]); |m.db.remote.groups| == 1 && !m.db.remote.groups[0].live
  {
    SoloTwo(db, x, c, OK, OK);
  }

  /** Somebody has given the name of the next room to a group of his own. A Create finds it,
      cannot record its policy, and deletes that group. */
  lemma ForeignGroupSwept() returns (w: seq<World>, acts: seq<Action>, n: nat)
    ensures IsRun(w, acts) && Init(w[0]) && n < |acts|
    ensures w[n].db.remote.groups == [Group(0, false, true)]
    ensures |w[|acts|].db.remote.groups| == 1 && !w[|acts|].db.remote.groups[0].live
  {
    w, acts := Served();
    var s := w[|acts|];
    w, acts, s := Act(w, acts, ForeignGroup(0));
    n := |acts|;
    var taken := [OK, OK, OK] + [OK, Reply(Refused, 0), OK];
    var v, more := SoloIsRun(s, 0, [OK, OK, OK] + (taken + [OK, OK]));
    hide Solo, StepCall, Next, Enabled;
    SoloThen(s.db, 0, s.calls[0], [OK, OK, OK], taken + [OK, OK]);
    FirstThree(s.db, 0);
    var m := Solo(s.db, 0, s.calls[0], [OK, OK, OK]);
    SoloThen(m.db, 0, m.call, taken, [OK, OK]);
    TakesTheGroup(m.db, 0, m.call);
    RevokesAndDrops(Solo(m.db, 0, m.call, taken).db, 0, Solo(m.db, 0, m.call, taken).call);
    Append(w, acts, v, more);
    w, acts := w[..|acts|] + v, acts + more;
  }

  // ---------------------------------------------------------------- a lost setup key

  lemma LosesItsKey(db: Db, x: RoomId, c: Call)
    requires c.pc.FindTheGroup? && c.key == KEY && c.sure && c.tidy && db.remote.groups == []
    ensures var m := Solo(db, x, c, [OK, OK, Reply(Lost, 7)] + [OK, OK, OK]);
      m.call.pc == Out(Unwound) && m.call.tidy && !m.call.sure
  {
    var lost := Reply(Lost, 7);
    var m1 := StepCall(db, x, c, OK);
    var m2 := StepCall(m1.db, x, m1.call, OK);
    var m3 := StepCall(m2.db, x, m2.call, lost);
    assert m3.call == c.(pc := DropGroup, group := m3.call.group, made := true, keyId := None, secret := 7,
                         sure := false);
    SoloThree(db, x, c, OK, OK, lost);
    SoloThen(db, x, c, [OK, OK, lost], [OK, OK, OK]);
    hide StepCall, Solo;
    Unwinds(m3.db, x, m3.call);
  }

  lemma Unwinds(db: Db, x: RoomId, c: Call)
    requires c.pc.DropGroup? && c.key == KEY
    ensures var m := Solo(db, x, c, [OK, OK, OK]);
      m.call.pc == Out(Unwound) && m.call.tidy == c.tidy && m.call.sure == c.sure
  {
    var m1 := StepCall(db, x, c, OK);
    var m2 := StepCall(m1.db, x, m1.call, OK);
    SoloThree(db, x, c, OK, OK, OK);
  }

  /** The reply of CreateSetupKey is lost and every delete succeeds: the call gives up, and
      by LostForever a valid key of its room stays. */
  lemma LostKeyStays() returns (w: seq<World>, acts: seq<Action>)
    ensures IsRun(w, acts) && Init(w[0])
    ensures var s := w[|acts|];
      && 0 < |s.calls| && s.calls[0].pc == Out(Unwound) && s.calls[0].tidy && !s.calls[0].sure
      && !NothingLives(s.db.remote, 0)
  {
    w, acts := Served();
    var s := w[|acts|];
    var rest := [OK, OK, Reply(Lost, 7)] + [OK, OK, OK];
    var v, more := SoloIsRun(s, 0, [OK, OK, OK] + rest);
    hide Solo, StepCall, Next, Enabled, NothingLives;
    SoloThen(s.db, 0, s.calls[0], [OK, OK, OK], rest);
    FirstThree(s.db, 0);
    var m := Solo(s.db, 0, s.calls[0], [OK, OK, OK]);
    LosesItsKey(m.db, 0, m.call);
    Append(w, acts, v, more);
    w, acts := w[..|acts|] + v, acts + more;
    LostForever(w, acts, |acts|, |acts|, 0);
  }
}
