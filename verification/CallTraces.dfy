/** What one Create or Disable does while everybody else moves too. Everything it cannot
    choose is an input: what the others do to the database before each of its calls, and how
    that call is answered. The link between the code in RoomService, which is proved to do
    exactly this, and the machine in Provisioning, of whose runs this is a part. */
module CallTraces {
  import opened Outcomes
  import opened RoomTables
  import opened Provisioning
  import opened ProvisioningInvariant
  import opened SoloRuns

  // ---------------------------------------------------------------- one Create

  /** What happens before a call, and its answer. */
  datatype Move = Move(others: Db -> Db, reply: Reply)

  /** The database and the caller after the first n calls, or fewer if it returned before. */
  function Amid(db: Db, x: RoomId, c: Call, moves: nat -> Move, n: nat): CallStep {
    if n == 0 then CallStep(db, c) else
    var m := Amid(db, x, c, moves, n - 1);
    if InFlight(m.call.pc) then StepCall(moves(n - 1).others(m.db), x, m.call, moves(n - 1).reply) else m
  }

  /** One request's course through the inputs: how many it has used, and where it is. */
  class Turns {
    const moves: nat -> Move
    var n: nat
    ghost const from: Db
    ghost const x: RoomId
    ghost const start: Call
    ghost var now: Call

    /** The request has made its first n calls, and nobody has moved since. */
    ghost predicate At(db: Db)
      reads this
    {
      Amid(from, x, start, moves, n) == CallStep(db, now)
    }

    /** The others have moved too: the next call finds db. */
    ghost predicate Finds(db: Db)
      reads this
    {
      && Amid(from, x, start, moves, n).call == now && InFlight(now.pc)
      && db == moves(n).others(Amid(from, x, start, moves, n).db)
    }

    constructor (moves: nat -> Move, ghost db: Db, ghost x: RoomId, ghost start: Call)
      ensures At(db) && now == start && this.x == x && this.moves == moves && n == 0
      ensures from == db && this.start == start
    {
      this.moves, n, from, this.x, this.start, now := moves, 0, db, x, start, start;
    }

    /** The call was made. */
    method Took(ghost before: Db, ghost after: Db)
      requires Finds(before) && after == StepCall(before, x, now, moves(n).reply).db
      modifies this
      ensures At(after) && now == StepCall(before, x, old(now), moves(old(n)).reply).call && n == old(n) + 1
    {
      hide StepCall;
      now := StepCall(before, x, now, moves(n).reply).call;
      n := n + 1;
    }
  }

  /** A call that has returned makes no more calls. */
  lemma {:induction false} AmidStops(db: Db, x: RoomId, c: Call, moves: nat -> Move, n: nat, m: nat)
    requires n <= m && !InFlight(Amid(db, x, c, moves, n).call.pc)
    ensures Amid(db, x, c, moves, m) == Amid(db, x, c, moves, n)
  {
    hide StepCall;
    if n < m { AmidStops(db, x, c, moves, n, m - 1); }
  }

  /** So how it ends depends on the inputs alone, not on who counts. */
  lemma OneEnd(db: Db, x: RoomId, c: Call, moves: nat -> Move, n: nat, m: nat)
    requires !InFlight(Amid(db, x, c, moves, n).call.pc) && !InFlight(Amid(db, x, c, moves, m).call.pc)
    ensures Amid(db, x, c, moves, n) == Amid(db, x, c, moves, m)
  {
    if n <= m { AmidStops(db, x, c, moves, n, m); } else { AmidStops(db, x, c, moves, m, n); }
  }

  // ---------------------------------------------------------------- stretches of a run

  /** A stretch of a run: the worlds and what happened. */
  datatype Stretch = Stretch(w: seq<World>, acts: seq<Action>) {
    ghost predicate IsOne() { IsRun(w, acts) }

    function Last(): World
      requires |w| == |acts| + 1
    {
      w[|acts|]
    }

    // Call x does not move in it, and the process does not die.
    predicate Spares(x: RoomId) {
      forall i :: 0 <= i < |acts| ==> !acts[i].Crash? && !(acts[i].Advance? && acts[i].x == x)
    }

    // Nor does Disable i.
    predicate SparesDisable(i: nat) {
      forall j :: 0 <= j < |acts| ==> !acts[j].Crash? && !(acts[j].AdvanceDisable? && acts[j].i == i)
    }
  }

  lemma SparesStep(s: World, a: Action, x: RoomId, i: nat)
    requires Enabled(s, a) && !a.Crash?
    ensures x < |s.calls| && !(a.Advance? && a.x == x) ==> x < |Next(s, a).calls| && Next(s, a).calls[x] == s.calls[x]
    ensures i < |s.disables| && !(a.AdvanceDisable? && a.i == i) ==>
              i < |Next(s, a).disables| && Next(s, a).disables[i] == s.disables[i]
  {
    hide StepCall, StepDisable, StepBoot;
  }

  lemma {:induction false} SparedCall(st: Stretch, x: RoomId, n: nat)
    requires st.IsOne() && st.Spares(x) && n <= |st.acts| && x < |st.w[0].calls|
    ensures x < |st.w[n].calls| && st.w[n].calls[x] == st.w[0].calls[x]
  {
    hide Next, Enabled;
    if n > 0 {
      SparedCall(st, x, n - 1);
      RunStep(st.w, st.acts, n - 1);
      SparesStep(st.w[n - 1], st.acts[n - 1], x, 0);
    }
  }

  lemma {:induction false} SparedDisable(st: Stretch, i: nat, n: nat)
    requires st.IsOne() && st.SparesDisable(i) && n <= |st.acts| && i < |st.w[0].disables|
    ensures i < |st.w[n].disables| && st.w[n].disables[i] == st.w[0].disables[i]
  {
    hide Next, Enabled;
    if n > 0 {
      SparedDisable(st, i, n - 1);
      RunStep(st.w, st.acts, n - 1);
      SparesStep(st.w[n - 1], st.acts[n - 1], 0, i);
    }
  }

  /** One more action after a stretch that follows a run. */
  lemma Extend(run: Stretch, more: Stretch, a: Action) returns (all: Stretch)
    requires run.IsOne() && more.IsOne() && more.w[0] == run.Last() && Enabled(more.Last(), a)
    ensures all.IsOne() && all.w[0] == run.w[0] && all.Last() == Next(more.Last(), a)
  {
    hide Enabled, Next;
    Append(run.w, run.acts, more.w, more.acts);
    var w, acts, s := Act(run.w[..|run.acts|] + more.w, run.acts + more.acts, a);
    all := Stretch(w, acts);
  }

  // ---------------------------------------------------------------- weaving

  ghost function Moved(x: RoomId, r: Reply, s: World): World {
    if Enabled(s, Advance(x, r)) then Next(s, Advance(x, r)) else s
  }

  // Where the last of these stretches and the call after it lead.
  ghost function End(x: RoomId, s: World, moves: nat -> Move, others: seq<Stretch>): World {
    if others == [] then s else
    var n := |others| - 1;
    if others[n].IsOne() then Moved(x, moves(n).reply, others[n].Last()) else s
  }

  /** others[i] is what the rest of the server does before the i-th call of x: a stretch of a
      run that starts where that call of x's left off and does to the database what the
      inputs say. */
  ghost predicate Woven(x: RoomId, s: World, moves: nat -> Move, others: seq<Stretch>)
    requires x < |s.calls|
  {
    others == [] ||
    var n := |others| - 1;
    && Woven(x, s, moves, others[..n]) && InFlight(Amid(s.db, x, s.calls[x], moves, n).call.pc)
    && others[n].IsOne() && others[n].Spares(x) && others[n].w[0] == End(x, s, moves, others[..n])
    && others[n].Last().db == moves(n).others(others[n].w[0].db)
  }

  /** One Create among the others: whatever they do in between, the whole is a run of the
      server, at whose end the database and the caller are what Amid says. */
  lemma {:induction false} WovenIsRun(x: RoomId, s: World, moves: nat -> Move, others: seq<Stretch>)
    returns (run: Stretch)
    requires x < |s.calls| && Woven(x, s, moves, others)
    ensures run.IsOne() && run.w[0] == s && run.Last() == End(x, s, moves, others) && x < |run.Last().calls|
    ensures CallStep(run.Last().db, run.Last().calls[x]) == Amid(s.db, x, s.calls[x], moves, |others|)
  {
    hide StepCall, Next, Enabled;
    if others == [] { return Stretch([s], []); }
    var n := |others| - 1;
    var before := WovenIsRun(x, s, moves, others[..n]);
    var st := others[n];
    SparedCall(st, x, |st.acts|);
    CanAdvance(st.Last(), x, moves(n).reply);
    run := Extend(before, st, Advance(x, moves(n).reply));
  }

  lemma CanAdvance(s: World, x: RoomId, r: Reply)
    requires x < |s.calls| && InFlight(s.calls[x].pc)
    ensures Enabled(s, Advance(x, r)) && Moved(x, r, s) == Next(s, Advance(x, r))
    ensures x < |Moved(x, r, s).calls|
    ensures CallStep(Moved(x, r, s).db, Moved(x, r, s).calls[x]) == StepCall(s.db, x, s.calls[x], r)
  {
    hide StepCall;
  }

  // ---------------------------------------------------------------- one Disable

  predicate CanStep(db: Db, d: Disabling, hit: Option<RoomId>) {
    !d.at.Closed? && (d.at.Find? && hit.Some? ==> hit.value in db.tables.rooms)
  }

  /** The same for a Disable, whose first call finds the row `hit`. */
  function AmidDisable(db: Db, d: Disabling, moves: nat -> Move, hit: Option<RoomId>, n: nat): DisableStep {
    if n == 0 then DisableStep(db, d) else
    var m := AmidDisable(db, d, moves, hit, n - 1);
    var before := moves(n - 1).others(m.db);
    if CanStep(before, m.d, hit) then StepDisable(before, m.d, moves(n - 1).reply.fate, hit) else m
  }

  class DisableTurns {
    const moves: nat -> Move
    var n: nat
    ghost const from: Db
    ghost const start: Disabling
    ghost var hit: Option<RoomId>
    ghost var now: Disabling

    ghost predicate At(db: Db)
      reads this
    {
      AmidDisable(from, start, moves, hit, n) == DisableStep(db, now) && (n > 0 ==> !now.at.Find?)
    }

    ghost predicate Finds(db: Db)
      reads this
    {
      && AmidDisable(from, start, moves, hit, n).d == now && !now.at.Closed? && (n > 0 ==> !now.at.Find?)
      && db == moves(n).others(AmidDisable(from, start, moves, hit, n).db)
    }

    constructor (moves: nat -> Move, ghost db: Db, ghost start: Disabling)
      ensures At(db) && now == start && this.moves == moves && n == 0 && from == db && this.start == start
    {
      this.moves, n, from, this.start, now, hit := moves, 0, db, start, start, None;
    }

    method Took(ghost before: Db, ghost after: Db, ghost found: Option<RoomId>)
      requires Finds(before) && CanStep(before, now, found) && (n > 0 ==> found == hit)
      requires after == StepDisable(before, now, moves(n).reply.fate, found).db
      modifies this
      ensures At(after) && now == StepDisable(before, old(now), moves(old(n)).reply.fate, found).d
      ensures n == old(n) + 1 && hit == found
    {
      now := StepDisable(before, now, moves(n).reply.fate, found).d;
      n, hit := n + 1, found;
    }
  }

  ghost function MovedDisable(i: nat, fate: Fate, hit: Option<RoomId>, s: World): World {
    if Enabled(s, AdvanceDisable(i, fate, hit)) then Next(s, AdvanceDisable(i, fate, hit)) else s
  }

  ghost function EndDisable(i: nat, s: World, moves: nat -> Move, hit: Option<RoomId>, others: seq<Stretch>): World {
    if others == [] then s else
    var n := |others| - 1;
    if others[n].IsOne() then MovedDisable(i, moves(n).reply.fate, hit, others[n].Last()) else s
  }

  ghost predicate WovenDisable(i: nat, s: World, moves: nat -> Move, hit: Option<RoomId>, others: seq<Stretch>)
    requires i < |s.disables|
  {
    others == [] ||
    var n := |others| - 1;
    var d := AmidDisable(s.db, s.disables[i], moves, hit, n).d;
    && WovenDisable(i, s, moves, hit, others[..n]) && !d.at.Closed?
    && others[n].IsOne() && others[n].SparesDisable(i) && others[n].w[0] == EndDisable(i, s, moves, hit, others[..n])
    && others[n].Last().db == moves(n).others(others[n].w[0].db)
    && (d.at.Find? ==> Answers(others[n].Last().db.tables, d.code, hit))
  }

  /** One Disable among the others is a run of the server too. */
  lemma {:induction false} WovenDisableIsRun(
    i: nat, s: World, moves: nat -> Move, hit: Option<RoomId>, others: seq<Stretch>)
    returns (run: Stretch)
    requires i < |s.disables| && WovenDisable(i, s, moves, hit, others)
    ensures run.IsOne() && run.w[0] == s && run.Last() == EndDisable(i, s, moves, hit, others)
    ensures i < |run.Last().disables|
    ensures DisableStep(run.Last().db, run.Last().disables[i]) == AmidDisable(s.db, s.disables[i], moves, hit, |others|)
  {
    hide StepDisable, Next, Enabled;
    if others == [] { return Stretch([s], []); }
    var n := |others| - 1;
    var before := WovenDisableIsRun(i, s, moves, hit, others[..n]);
    var st := others[n];
    SparedDisable(st, i, |st.acts|);
    CanAdvanceDisable(st.Last(), i, moves(n).reply.fate, hit);
    run := Extend(before, st, AdvanceDisable(i, moves(n).reply.fate, hit));
  }

  lemma CanAdvanceDisable(s: World, i: nat, fate: Fate, hit: Option<RoomId>)
    requires i < |s.disables| && !s.disables[i].at.Closed?
    requires s.disables[i].at.Find? ==> Answers(s.db.tables, s.disables[i].code, hit)
    ensures Enabled(s, AdvanceDisable(i, fate, hit)) && CanStep(s.db, s.disables[i], hit)
    ensures MovedDisable(i, fate, hit, s) == Next(s, AdvanceDisable(i, fate, hit))
    ensures i < |MovedDisable(i, fate, hit, s).disables|
    ensures var t := MovedDisable(i, fate, hit, s);
      DisableStep(t.db, t.disables[i]) == StepDisable(s.db, s.disables[i], fate, hit)
  {
    hide StepDisable;
  }

  // ---------------------------------------------------------------- and back

  /** Every course a Create takes in any run of the server is one that the code takes for some
      inputs: the machine allows nothing the code does not do. */
  lemma {:induction false} EveryCourseIsCode(w: seq<World>, acts: seq<Action>, x: RoomId, from: nat, n: nat, db: Db)
    returns (moves: nat -> Move, m: nat)
    requires IsRun(w, acts) && from <= n < |w| && x < |w[from].calls|
    requires x < |w[n].calls| && w[n].calls[x].pc != Crashed
    ensures Amid(db, x, w[from].calls[x], moves, m).call == w[n].calls[x]
  {
    hide StepCall, Next, Enabled, IsRun;
    if n == from { return (i => Move(d => d, Reply(Done, 0))), 0; }
    RunStep(w, acts, n - 1);
    CallsGrow(w, acts, x, from, n - 1);
    var s, a := w[n - 1], acts[n - 1];
    NotYetCrashed(s, a, x);
    moves, m := EveryCourseIsCode(w, acts, x, from, n - 1, db);
    if a.Advance? && a.x == x {
      CanAdvance(s, x, a.reply);
      moves := OneMoreMove(db, x, w[from].calls[x], moves, m, s.db, a.reply);
      m := m + 1;
    }
  }

  // The same inputs, and then a call that finds `before` and is answered so.
  lemma OneMoreMove(db: Db, x: RoomId, c: Call, moves: nat -> Move, m: nat, before: Db, r: Reply)
    returns (more: nat -> Move)
    requires InFlight(Amid(db, x, c, moves, m).call.pc)
    ensures Amid(db, x, c, more, m + 1) == StepCall(before, x, Amid(db, x, c, moves, m).call, r)
  {
    hide StepCall;
    var last := Move(d => before, r);
    more := (i: nat) => if i < m then moves(i) else last;
    SamePrefix(db, x, c, moves, more, m);
    assert more(m) == last && last.others(Amid(db, x, c, moves, m).db) == before;
  }

  lemma {:induction false} SamePrefix(db: Db, x: RoomId, c: Call, moves: nat -> Move, more: nat -> Move, n: nat)
    requires forall i: nat :: i < n ==> moves(i) == more(i)
    ensures Amid(db, x, c, moves, n) == Amid(db, x, c, more, n)
  {
    hide StepCall;
    if n > 0 { SamePrefix(db, x, c, moves, more, n - 1); }
  }

  lemma {:induction false} CallsGrow(w: seq<World>, acts: seq<Action>, x: RoomId, n: nat, m: nat)
    requires IsRun(w, acts) && n <= m < |w| && x < |w[n].calls|
    ensures x < |w[m].calls|
  {
    hide Next, Enabled;
    if n < m {
      CallsGrow(w, acts, x, n, m - 1);
      RunStep(w, acts, m - 1);
      CallsGrowStep(w[m - 1], acts[m - 1]);
    }
  }

  lemma CallsGrowStep(s: World, a: Action)
    requires Enabled(s, a)
    ensures |s.calls| <= |Next(s, a).calls|
  {
    hide StepCall, StepBoot, StepDisable;
  }

  // A call that has not crashed had not crashed before, and moves in its own steps only.
  lemma NotYetCrashed(s: World, a: Action, x: RoomId)
    requires Enabled(s, a) && x < |s.calls| && x < |Next(s, a).calls| && Next(s, a).calls[x].pc != Crashed
    ensures s.calls[x].pc != Crashed && (a.Advance? && a.x == x ==> InFlight(s.calls[x].pc))
    ensures a.Advance? && a.x == x ==> Next(s, a) == Moved(x, a.reply, s)
    ensures !(a.Advance? && a.x == x) ==> Next(s, a).calls[x] == s.calls[x]
  {
    hide StepCall, StepBoot, StepDisable;
  }

  // ---------------------------------------------------------------- the startup Reconcile

  predicate CanBoot(b: Boot) { Working(b) && (!b.at.Fetch? && !b.at.MarkOp? ==> b.row.Some?) }

  /** The same for Reconcile, which runs before anybody else does. */
  function AmidBoot(db: Db, b: Boot, fates: nat -> Fate, n: nat): BootStep {
    if n == 0 then BootStep(db, b) else
    var m := AmidBoot(db, b, fates, n - 1);
    if CanBoot(m.boot) then StepBoot(m.db, m.boot, fates(n - 1)) else m
  }

  class BootTurns {
    const fates: nat -> Fate
    var n: nat
    ghost const from: Db
    ghost const start: Boot
    ghost var now: Boot

    ghost predicate At(db: Db)
      reads this
    {
      AmidBoot(from, start, fates, n) == BootStep(db, now)
    }

    constructor (fates: nat -> Fate, ghost db: Db, ghost start: Boot)
      ensures At(db) && now == start && this.fates == fates && n == 0 && from == db && this.start == start
    {
      this.fates, n, from, this.start, now := fates, 0, db, start, start;
    }

    method Took(ghost before: Db, ghost after: Db)
      requires At(before) && CanBoot(now) && after == StepBoot(before, now, fates(n)).db
      modifies this
      ensures At(after) && now == StepBoot(before, old(now), fates(old(n))).boot && n == old(n) + 1
    {
      hide StepBoot;
      now := StepBoot(before, now, fates(n)).boot;
      n := n + 1;
    }
  }

  /** And it is a run of the server. */
  lemma {:induction false} BootIsRun(s: World, fates: nat -> Fate, n: nat) returns (run: Stretch)
    requires s.phase.Repairing? && Working(s.phase.boot)
    ensures run.IsOne() && run.w[0] == s && forall i :: 0 <= i < |run.acts| ==> run.acts[i].Repair?
    ensures var m, t := AmidBoot(s.db, s.phase.boot, fates, n), run.Last();
      && t.db == m.db && t.phase == AfterBoot(m.boot)
      && t.calls == s.calls && t.disables == s.disables && t.targets == s.targets
  {
    hide StepBoot;
    if n == 0 { return Stretch([s], []); }
    run := BootIsRun(s, fates, n - 1);
    var m := AmidBoot(s.db, s.phase.boot, fates, n - 1);
    if CanBoot(m.boot) {
      var w, acts, t := Act(run.w, run.acts, Repair(fates(n - 1)));
      run := Stretch(w, acts);
    }
  }
}
