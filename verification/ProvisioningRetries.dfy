/** Why OneRoomPerKey asks that no two calls of a key are about to reset its record at once:
    the retry flag is read before the record is claimed, so both pass service.go:115. From
    any state in which two are, both can still return, each with an active room of its own. */
module ProvisioningRetries {
  import opened Outcomes
  import opened RoomTables
  import opened NetBirdState
  import opened Provisioning
  import opened ProvisioningInvariant
  import opened ProvisioningIdempotence
  import opened SoloRuns

  // ---------------------------------------------------------------- a Create in nobody's way

  lemma Claims(db: Db, x: RoomId, c: Call, r: Reply)
    requires c.pc.Reset? && c.retry && r.fate.Done? && !db.tables.Clashes(x, Digest(c.code))
    ensures var m := Solo(db, x, c, [r, r, r]);
      && m.db.remote == db.remote && m.call == c.(pc := FindTheGroup, gated := true)
      && m.db.tables.rooms == db.tables.rooms[x := Room(Digest(c.code), None, None, Blank, None, Creating)]
  {
    var m1 := StepCall(db, x, c, r);
    var m2 := StepCall(m1.db, x, m1.call, r);
    SoloThree(db, x, c, r, r, r);
  }

  // One call less if a group of that name is there already.
  function MakeReplies(db: Db, x: RoomId, r: Reply): seq<Reply> {
    if FindGroup(db.remote.groups, x).Some? then [r, r] else [r, r, r]
  }

  // The setup key is made, for a group found or made.
  predicate MadeKey(db: Db, x: RoomId, c: Call, secret: Secret, m: CallStep) {
    && m.db.tables == db.tables
    && m.call == c.(pc := RecordKey, group := m.call.group, made := m.call.made, keyId := m.call.keyId,
                    secret := secret)
    && m.call.keyId == Some(|db.remote.keys|) && |m.db.remote.keys| == |db.remote.keys| + 1
    && m.db.remote.keys[|db.remote.keys|] == SetupKey(x, secret, Valid)
  }

  lemma MakesKey(db: Db, x: RoomId, c: Call, r: Reply)
    requires c.pc.MakeKey? && r.fate.Done?
    ensures InFlight(c.pc) && MadeKey(db, x, c, r.secret, StepCall(db, x, c, r))
  {
  }

  lemma Makes(db: Db, x: RoomId, c: Call, r: Reply)
    requires c.pc.FindTheGroup? && r.fate.Done?
    ensures MadeKey(db, x, c, r.secret, Solo(db, x, c, MakeReplies(db, x, r)))
  {
    var m1 := StepCall(db, x, c, r);
    if FindGroup(db.remote.groups, x).Some? {
      assert m1.db == db && m1.call == c.(pc := MakeKey, group := m1.call.group);
      hide StepCall;
      MakesKey(m1.db, x, m1.call, r);
      SoloTwo(db, x, c, r, r);
    } else {
      var m2 := StepCall(m1.db, x, m1.call, r);
      assert m2.db.tables == db.tables && m2.db.remote.keys == db.remote.keys;
      assert m2.call == c.(pc := MakeKey, group := m2.call.group, made := true);
      hide StepCall;
      MakesKey(m2.db, x, m2.call, r);
      SoloThree(db, x, c, r, r, r);
    }
  }

  lemma Records(db: Db, x: RoomId, c: Call, r: Reply)
    requires c.pc.RecordKey? && r.fate.Done? && x in db.tables.rooms
    ensures var m := Solo(db, x, c, [r, r, r]);
      && m.db.tables.rooms.Keys == db.tables.rooms.Keys && m.db.tables.ops == db.tables.ops
      && (forall y :: y in db.tables.rooms && y != x ==> m.db.tables.rooms[y] == db.tables.rooms[y])
      && m.db.tables.rooms[x].codeHash == db.tables.rooms[x].codeHash
      && m.call == c.(pc := Activate, policy := m.call.policy, sweep := false)
  {
    var m1 := StepCall(db, x, c, r);
    var m2 := StepCall(m1.db, x, m1.call, r);
    SoloThree(db, x, c, r, r, r);
  }

  lemma Closes(db: Db, x: RoomId, c: Call, r: Reply)
    requires c.pc.Activate? && r.fate.Done? && x in db.tables.rooms && c.key != NO_KEY
    ensures var m := Solo(db, x, c, [r, r]);
      && m.db.tables.rooms == db.tables.rooms[x := db.tables.rooms[x].(status := Active)]
      && m.call.pc == Finished(Success(Own(x, c))) && m.call.key == c.key
  {
    SoloTwo(db, x, c, r, r);
  }

  function AllWell(db: Db, x: RoomId, r: Reply): seq<Reply> {
    [r, r, r] + (MakeReplies(db, x, r) + ([r, r, r] + [r, r]))
  }

  /** A retry whose code is its own and that is refused nothing succeeds, whatever the secret
      it draws and whoever else has a group of that name: one new active room, and no other
      row changes. */
  lemma RetryAlone(db: Db, x: RoomId, c: Call, secret: Secret)
    requires c.pc.Reset? && c.retry && c.key != NO_KEY && !db.tables.Clashes(x, Digest(c.code))
    ensures var m := Solo(db, x, c, AllWell(db, x, Reply(Done, secret)));
      && m.call.pc == Finished(Success(Response(x, Some(c.code), MANAGEMENT_URL, secret)))
      && m.call.key == c.key && ActiveIn(m.db, x) && m.db.tables.rooms[x].codeHash == Digest(c.code)
      && m.db.tables.rooms.Keys == db.tables.rooms.Keys + {x}
      && (forall y :: y in db.tables.rooms ==> m.db.tables.rooms[y] == db.tables.rooms[y])
  {
    var r := Reply(Done, secret);
    hide Solo, StepCall, FindGroup;
    Claims(db, x, c, r);
    var m1 := Solo(db, x, c, [r, r, r]);
    Makes(m1.db, x, m1.call, r);
    var make := MakeReplies(db, x, r);
    assert make == MakeReplies(m1.db, x, r);
    SoloThen(db, x, c, [r, r, r], make + ([r, r, r] + [r, r]));
    SoloThen(m1.db, x, m1.call, make, [r, r, r] + [r, r]);
    var m2 := Solo(m1.db, x, m1.call, make);
    Records(m2.db, x, m2.call, r);
    SoloThen(m2.db, x, m2.call, [r, r, r], [r, r]);
    var m3 := Solo(m2.db, x, m2.call, [r, r, r]);
    Closes(m3.db, x, m3.call, r);
  }

  // ---------------------------------------------------------------- two of them

  predicate CodeFree(s: World, x: RoomId)
    requires x < |s.calls|
  {
    forall y :: y in s.db.tables.rooms ==> s.db.tables.rooms[y].codeHash != Digest(s.calls[x].code)
  }

  lemma RetryNext(s: World, x: RoomId, secret: Secret) returns (v: seq<World>, more: seq<Action>)
    requires Inv(s) && x < |s.calls| && s.calls[x].pc.Reset? && s.calls[x].retry && CodeFree(s, x)
    ensures IsRun(v, more) && v[0] == s
    ensures var t, response := v[|more|], Response(x, Some(s.calls[x].code), MANAGEMENT_URL, secret);
      && Returned(t.calls, x, response) && ActiveIn(t.db, x) && t.db.tables.rooms[x].codeHash == Digest(s.calls[x].code)
      && |t.calls| == |s.calls| && (forall y :: 0 <= y < |s.calls| && y != x ==> t.calls[y] == s.calls[y])
      && t.db.tables.rooms.Keys == s.db.tables.rooms.Keys + {x}
      && (forall y :: y in s.db.tables.rooms ==> t.db.tables.rooms[y] == s.db.tables.rooms[y])
  {
    assert CallOk(s.db, s.targets, x, s.calls[x]);
    hide Inv, IdsOk, Solo, StepCall, Next, Enabled;
    RetryAlone(s.db, x, s.calls[x], secret);
    v, more := SoloIsRun(s, x, AllWell(s.db, x, Reply(Done, secret)));
  }

  // Let the retry x go on to its end.
  lemma RetryOn(w: seq<World>, acts: seq<Action>, x: RoomId, secret: Secret) returns (v: seq<World>, more: seq<Action>)
    requires IsRun(w, acts) && Init(w[0]) && x < |w[|acts|].calls| && w[|acts|].calls[x].pc.Reset?
    requires CodeFree(w[|acts|], x)
    ensures IsRun(v, more) && v[0] == w[0] && |acts| <= |more| && more[..|acts|] == acts && v[|acts|] == w[|acts|]
    ensures var s, t := w[|acts|], v[|more|];
      var response := Response(x, Some(s.calls[x].code), MANAGEMENT_URL, secret);
      && Returned(t.calls, x, response) && ActiveIn(t.db, x) && t.db.tables.rooms[x].codeHash == Digest(s.calls[x].code)
      && |t.calls| == |s.calls| && (forall y :: 0 <= y < |s.calls| && y != x ==> t.calls[y] == s.calls[y])
      && t.db.tables.rooms.Keys == s.db.tables.rooms.Keys + {x}
      && (forall y :: y in s.db.tables.rooms ==> t.db.tables.rooms[y] == s.db.tables.rooms[y])
  {
    var s := w[|acts|];
    GateAlong(w, acts, |acts|);
    assert GateCallOk(s.db.tables.ops, s.errored, x, s.calls[x]);
    RunInv(w, acts, |acts|);
    hide Init, GateOk, Inv, Next, Enabled, CodeFree;
    var u, rest := RetryNext(s, x, secret);
    Append(w, acts, u, rest);
    v, more := w[..|acts|] + u, acts + rest;
  }

  /** Any run that reaches a state in which two calls of a key are about to reset its record
      (with codes nobody has) can go on so that both return, with two different rooms, both
      active: the hypothesis of OneRoomPerKey cannot be weakened. */
  lemma TwoResetsTwoRooms(w: seq<World>, acts: seq<Action>, x: RoomId, y: RoomId, secret: Secret)
    returns (v: seq<World>, more: seq<Action>, r1: Response, r2: Response)
    requires IsRun(w, acts) && Init(w[0])
    requires var s := w[|acts|];
      && x < |s.calls| && y < |s.calls| && x != y && s.calls[x].key == s.calls[y].key
      && s.calls[x].pc.Reset? && s.calls[y].pc.Reset? && s.calls[x].code != s.calls[y].code && CodeFree(s, x)
      && CodeFree(s, y)
    ensures IsRun(v, more) && v[0] == w[0] && |acts| <= |more| && more[..|acts|] == acts && v[|acts|] == w[|acts|]
    ensures var t := v[|more|];
      && Returned(t.calls, x, r1) && Returned(t.calls, y, r2) && r1.roomId == x && r2.roomId == y
      && ActiveIn(t.db, x) && ActiveIn(t.db, y)
  {
    hide Init, Next, Enabled;
    var s := w[|acts|];
    var w1, a1 := RetryOn(w, acts, x, secret);
    v, more := RetryOn(w1, a1, y, secret);
    RunPrefix(w1, a1, v, more, |acts|);
    r1 := Response(x, Some(s.calls[x].code), MANAGEMENT_URL, secret);
    r2 := Response(y, Some(s.calls[y].code), MANAGEMENT_URL, secret);
  }

  /** Runs are determined by where they start and what happens. */
  lemma {:induction false} RunPrefix(w: seq<World>, acts: seq<Action>, v: seq<World>, more: seq<Action>, n: nat)
    requires IsRun(w, acts) && IsRun(v, more) && w[0] == v[0] && n <= |acts| <= |more| && more[..|acts|] == acts
    ensures v[n] == w[n] && more[..n] == acts[..n]
  {
    if n > 0 {
      RunPrefix(w, acts, v, more, n - 1);
      RunStep(w, acts, n - 1);
      RunStep(v, more, n - 1);
      assert more[n - 1] == more[..|acts|][n - 1] == acts[n - 1];
      hide IsRun, Next, Enabled;
    }
    assert more[..n] == more[..|acts|][..n];
  }
}
