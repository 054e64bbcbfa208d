/** What one Create does with nobody else moving, and how runs are put together. */
module SoloRuns {
  import opened RoomTables
  import opened Provisioning

  /** The steps of one Create, with nobody else moving. */
  function Solo(db: Db, x: RoomId, c: Call, replies: seq<Reply>): CallStep
    decreases |replies|
  {
    if replies == [] || !InFlight(c.pc) then CallStep(db, c) else
    var m := StepCall(db, x, c, replies[0]);
    Solo(m.db, x, m.call, replies[1..])
  }

  lemma {:induction false} SoloThen(db: Db, x: RoomId, c: Call, first: seq<Reply>, second: seq<Reply>)
    ensures var m := Solo(db, x, c, first); Solo(db, x, c, first + second) == Solo(m.db, x, m.call, second)
    decreases |first|
  {
    if first == [] {
      assert first + second == second;
    } else if InFlight(c.pc) {
      var m := StepCall(db, x, c, first[0]);
      SoloThen(m.db, x, m.call, first[1..], second);
      assert (first + second)[1..] == first[1..] + second;
      hide StepCall;
    }
  }

  lemma SoloOne(db: Db, x: RoomId, c: Call, r: Reply)
    requires InFlight(c.pc)
    ensures Solo(db, x, c, [r]) == StepCall(db, x, c, r)
  {
    hide StepCall;
    var m := StepCall(db, x, c, r);
    assert [r][1..] == [];
  }

  /** One caller moving alone is a run of the whole server in which nobody else moves. */
  lemma {:induction false} SoloIsRun(s: World, x: RoomId, replies: seq<Reply>)
    returns (w: seq<World>, acts: seq<Action>)
    requires x < |s.calls|
    ensures IsRun(w, acts) && w[0] == s && |acts| <= |replies|
    ensures forall i :: 0 <= i < |acts| ==> acts[i] == Advance(x, replies[i])
    ensures var m, t := Solo(s.db, x, s.calls[x], replies), w[|acts|];
      && t.db == m.db && t.calls == s.calls[x := m.call]
      && t.disables == s.disables && t.phase == s.phase && t.targets == s.targets
    decreases |replies|
  {
    hide StepCall;
    if replies == [] || !InFlight(s.calls[x].pc) { return [s], []; }
    var a := Advance(x, replies[0]);
    var t := Next(s, a);
    var v, more := SoloIsRun(t, x, replies[1..]);
    w, acts := [s] + v, [a] + more;
    assert t.calls[x := v[|more|].calls[x]] == s.calls[x := v[|more|].calls[x]];
    forall i | 0 <= i < |acts|
      ensures Enabled(w[i], acts[i]) && w[i + 1] == Next(w[i], acts[i])
      ensures acts[i] == Advance(x, replies[i])
    {
      if i > 0 { assert w[i] == v[i - 1] && acts[i] == more[i - 1] && replies[i] == replies[1..][i - 1]; }
    }
  }

  lemma SoloTwo(db: Db, x: RoomId, c: Call, q: Reply, r: Reply)
    requires InFlight(c.pc) && InFlight(StepCall(db, x, c, q).call.pc)
    ensures var m := StepCall(db, x, c, q); Solo(db, x, c, [q, r]) == StepCall(m.db, x, m.call, r)
  {
    hide StepCall;
    var m := StepCall(db, x, c, q);
    SoloOne(m.db, x, m.call, r);
    assert [q, r][1..] == [r];
  }

  lemma SoloThree(db: Db, x: RoomId, c: Call, p: Reply, q: Reply, r: Reply)
    requires InFlight(c.pc) && InFlight(StepCall(db, x, c, p).call.pc)
    requires var m := StepCall(db, x, c, p); InFlight(StepCall(m.db, x, m.call, q).call.pc)
    ensures var m := StepCall(db, x, c, p);
      var n := StepCall(m.db, x, m.call, q);
      Solo(db, x, c, [p, q, r]) == StepCall(n.db, x, n.call, r)
  {
    hide StepCall;
    var m := StepCall(db, x, c, p);
    SoloTwo(m.db, x, m.call, q, r);
    assert [p, q, r][1..] == [q, r];
  }

  // ---------------------------------------------------------------- longer runs

  lemma Append(w: seq<World>, acts: seq<Action>, v: seq<World>, more: seq<Action>)
    requires IsRun(w, acts) && IsRun(v, more) && v[0] == w[|acts|]
    ensures IsRun(w[..|acts|] + v, acts + more) && (w[..|acts|] + v)[0] == w[0]
    ensures (w[..|acts|] + v)[|acts + more|] == v[|more|]
    ensures (w[..|acts|] + v)[|acts|] == w[|acts|] && (acts + more)[..|acts|] == acts
  {
    var u, all := w[..|acts|] + v, acts + more;
    forall i | 0 <= i < |all| ensures Enabled(u[i], all[i]) && u[i + 1] == Next(u[i], all[i]) {
      if i < |acts| {
        assert u[i] == w[i] && u[i + 1] == w[i + 1];
      } else {
        assert u[i] == v[i - |acts|] && u[i + 1] == v[i - |acts| + 1];
      }
      hide Enabled, Next;
    }
  }

  lemma Act(w: seq<World>, acts: seq<Action>, a: Action) returns (v: seq<World>, more: seq<Action>, s: World)
    requires IsRun(w, acts) && Enabled(w[|acts|], a)
    ensures more == acts + [a] && IsRun(v, more) && v[0] == w[0]
    ensures s == v[|more|] == Next(w[|acts|], a)
  {
    hide Enabled, Next;
    v, more, s := w + [Next(w[|acts|], a)], acts + [a], Next(w[|acts|], a);
    forall i | 0 <= i < |more| ensures Enabled(v[i], more[i]) && v[i + 1] == Next(v[i], more[i]) {
      if i < |acts| { assert v[i] == w[i] && v[i + 1] == w[i + 1] && more[i] == acts[i]; }
    }
  }
}
