/** Accounting for the remote resources of the provisioning saga: what can exist without
    being recorded in the row of its room, what a failed Create leaves behind, and what
    the next Reconcile removes. */
module ProvisioningResources {
  import opened Outcomes
  import opened RoomTables
  import opened NetBirdState
  import opened Provisioning
  import opened ProvisioningInvariant

  // ---------------------------------------------------------------- the resources of a room

  ghost predicate GroupsAre(rm: Remote, x: RoomId, id: Option<nat>) {
    forall g :: 0 <= g < |rm.groups| && rm.groups[g].made && rm.groups[g].name == x ==> id == Some(g)
  }

  ghost predicate KeysAre(rm: Remote, x: RoomId, id: Option<nat>) {
    forall n :: 0 <= n < |rm.keys| && rm.keys[n].room == x ==> id == Some(n)
  }

  ghost predicate PoliciesAre(rm: Remote, x: RoomId, id: Option<nat>) {
    forall p :: 0 <= p < |rm.policies| && rm.policies[p].room == x ==> id == Some(p)
  }

  /** One group, one key and one policy at most were ever made for the room. */
  ghost predicate OneOfEach(rm: Remote, x: RoomId) {
    && (forall g, h | 0 <= g < |rm.groups| && 0 <= h < |rm.groups| && rm.groups[g].made && rm.groups[h].made ::
          rm.groups[g].name == x && rm.groups[h].name == x ==> g == h)
    && (forall m, n | 0 <= m < |rm.keys| && 0 <= n < |rm.keys| :: rm.keys[m].room == x && rm.keys[n].room == x ==>
          m == n)
    && (forall p, q | 0 <= p < |rm.policies| && 0 <= q < |rm.policies| ::
          rm.policies[p].room == x && rm.policies[q].room == x ==> p == q)
  }

  ghost predicate NoLivePolicy(rm: Remote, x: RoomId) {
    forall p :: 0 <= p < |rm.policies| && rm.policies[p].room == x ==> !rm.policies[p].live
  }

  ghost predicate NoValidKey(rm: Remote, x: RoomId) {
    forall n :: 0 <= n < |rm.keys| && rm.keys[n].room == x ==> !rm.keys[n].state.Valid?
  }

  ghost predicate NoLiveGroup(rm: Remote, x: RoomId) {
    forall g :: 0 <= g < |rm.groups| && rm.groups[g].made && rm.groups[g].name == x ==> !rm.groups[g].live
  }

  ghost predicate NothingLives(rm: Remote, x: RoomId) { NoLivePolicy(rm, x) && NoLiveGroup(rm, x) && NoValidKey(rm, x) }

  // ---------------------------------------------------------------- the invariant

  predicate BeforeGroup(pc: Pc) { BeforeRow(pc) || pc.FindTheGroup? || pc.MakeGroup? }

  predicate BeforePolicy(pc: Pc) { BeforeGroup(pc) || pc.MakeKey? || pc.RecordKey? || pc.MakePolicy? }

  /** What the call knows about the resources that exist for its room. */
  ghost predicate KnowsOwn(rm: Remote, x: RoomId, c: Call) {
    && OneOfEach(rm, x)
    && (c.group.Some? ==> GroupsAre(rm, x, if c.made then c.group else None))
    && (c.keyId.Some? ==> KeysAre(rm, x, c.keyId))
    && (c.policy.Some? ==> PoliciesAre(rm, x, c.policy))
    && (BeforeGroup(c.pc) ==> GroupsAre(rm, x, None))
    && (BeforeGroup(c.pc) || c.pc.MakeKey? ==> KeysAre(rm, x, None))
    && (BeforePolicy(c.pc) ==> PoliciesAre(rm, x, None))
  }

  predicate Undone(pc: Pc) { pc.FailRoom? || pc.FailOp? || pc == Out(Unwound) }

  /** How far a call has cleaned up after itself if no creation was Lost and no delete Refused. */
  ghost predicate CleansUp(rm: Remote, x: RoomId, c: Call) {
    && (c.pc.DropPolicy? || c.pc.RevokeKey? ==> c.keyId.Some? && c.group.Some?)
    && (c.pc.DropPolicy? ==> c.policy.Some?)
    && (c.pc.DropGroup? ==> c.group.Some?)
    && (c.sure && c.tidy && (c.pc.RevokeKey? || c.pc.DropGroup? || Undone(c.pc)) ==> NoLivePolicy(rm, x))
    && (c.sure && c.tidy && (c.pc.DropGroup? || Undone(c.pc)) ==> NoValidKey(rm, x))
    && (c.sure && c.tidy && Undone(c.pc) ==> NoLiveGroup(rm, x))
  }

  /** How the row follows. */
  ghost predicate RowFollows(db: Db, x: RoomId, c: Call) {
    && (x !in db.tables.rooms ==>
          GroupsAre(db.remote, x, None) && KeysAre(db.remote, x, None) && PoliciesAre(db.remote, x, None))
    && (x in db.tables.rooms ==>
          var row := db.tables.rooms[x];
          && (row.groupId.Some? <==> row.setupKeyId.Some?)
          && (row.policyId.Some? ==> row.setupKeyId.Some?)
          && (row.setupKeyId.None? ==> PoliciesAre(db.remote, x, None))
          && (c.pc.MakePolicy? || c.pc.RecordPolicy? ==> row.setupKeyId.Some?))
    && (c.pc == Out(Tail) ==> Complete(c) && x in db.tables.rooms && RowFull(db.tables.rooms[x], c))
  }

  ghost predicate TallyOk(db: Db, x: RoomId, c: Call) {
    KnowsOwn(db.remote, x, c) && CleansUp(db.remote, x, c) && RowFollows(db, x, c)
  }

  // ---------------------------------------------------------------- one step of Create

  lemma GateTally(db: Db, targets: set<RoomId>, x: RoomId, c: Call, r: Reply)
    requires c.pc.Lookup? || c.pc.Reset? || c.pc.Insert? || c.pc.InsertRoom?
    requires TallyOk(db, x, c) && CallOk(db, targets, x, c) && RowOk(db, targets, x, c)
    ensures var m := StepGate(db, x, c, r); TallyOk(m.db, x, m.call)
  {
    match c.pc { case Lookup => case Reset => case Insert => case _ => }
  }

  lemma FindTheGroupTally(db: Db, targets: set<RoomId>, x: RoomId, c: Call, r: Reply)
    requires c.pc.FindTheGroup? && TallyOk(db, x, c) && CallOk(db, targets, x, c) && RowOk(db, targets, x, c)
    ensures var m := AtFindTheGroup(db, x, c, r); TallyOk(m.db, x, m.call)
  {
    var m := AtFindTheGroup(db, x, c, r);
    assert m.db == db && m.call.made == c.made && m.call.keyId == c.keyId && m.call.policy == c.policy;
    FoundGroup(db, x, c, r);
    hide IdsOk, OneOfEach, KnowsOwn, FindGroup;
  }

  lemma FoundGroup(db: Db, x: RoomId, c: Call, r: Reply)
    requires c.pc.FindTheGroup? && KnowsOwn(db.remote, x, c)
    ensures KnowsOwn(db.remote, x, AtFindTheGroup(db, x, c, r).call)
  {
    var d := AtFindTheGroup(db, x, c, r).call;
    assert d.group.Some? ==> d.pc.MakeKey?;
    assert d.pc == FailRoom || d.pc == MakeKey || d.pc == MakeGroup;
    assert d.made == c.made && d.keyId == c.keyId && d.policy == c.policy;
    hide AtFindTheGroup, OneOfEach;
  }

  lemma MakeGroupKnows(db: Db, x: RoomId, c: Call, r: Reply)
    requires c.pc.MakeGroup? && KnowsOwn(db.remote, x, c)
    ensures var m := AtMakeGroup(db, x, c, r); KnowsOwn(m.db.remote, x, m.call)
  {
    var m := AtMakeGroup(db, x, c, r);
    assert m.call.pc == if r.fate.Done? then MakeKey else FailRoom;
    assert m.db.remote == if r.fate.Refused? then db.remote else db.remote.CreateGroup(x, true);
    assert m.call.made == r.fate.Done? && m.call.keyId == c.keyId && m.call.policy == c.policy;
    assert m.call.group == if r.fate.Done? then Some(|db.remote.groups|) else None;
    hide AtMakeGroup;
    if r.fate.Refused? {} else {}
  }

  lemma MakeGroupTally(db: Db, targets: set<RoomId>, x: RoomId, c: Call, r: Reply)
    requires c.pc.MakeGroup? && TallyOk(db, x, c) && CallOk(db, targets, x, c) && RowOk(db, targets, x, c)
    ensures var m := AtMakeGroup(db, x, c, r); TallyOk(m.db, x, m.call)
  {
    var m := AtMakeGroup(db, x, c, r);
    MakeGroupKnows(db, x, c, r);
    hide KnowsOwn, IdsOk, OneOfEach;
    assert RowFollows(m.db, x, m.call);
    hide RowFollows;
  }

  lemma MakeKeyKnows(db: Db, x: RoomId, c: Call, r: Reply)
    requires c.pc.MakeKey? && KnowsOwn(db.remote, x, c)
    ensures var m := AtMakeKey(db, x, c, r); KnowsOwn(m.db.remote, x, m.call)
  {
    var m := AtMakeKey(db, x, c, r);
    assert m.call.pc == if r.fate.Done? then RecordKey else if c.made then DropGroup else FailRoom;
    assert m.db.remote == if r.fate.Refused? then db.remote else db.remote.CreateSetupKey(x, r.secret);
    assert m.call.group == c.group && m.call.made == c.made && m.call.policy == c.policy;
    assert m.call.keyId == if r.fate.Done? then Some(|db.remote.keys|) else None;
    hide AtMakeKey;
    if r.fate.Refused? {} else {}
  }

  lemma MakeKeyTally(db: Db, targets: set<RoomId>, x: RoomId, c: Call, r: Reply)
    requires c.pc.MakeKey? && TallyOk(db, x, c) && CallOk(db, targets, x, c) && RowOk(db, targets, x, c)
    ensures var m := AtMakeKey(db, x, c, r); TallyOk(m.db, x, m.call)
  {
    var m := AtMakeKey(db, x, c, r);
    MakeKeyKnows(db, x, c, r);
    assert RowFollows(m.db, x, m.call) by { hide KnowsOwn, IdsOk, CleansUp, OneOfEach; }
    MakeKeyCleans(db, x, c, r);
    hide KnowsOwn, IdsOk, OneOfEach, RowFollows, CleansUp;
  }

  lemma MakeKeyCleans(db: Db, x: RoomId, c: Call, r: Reply)
    requires c.pc.MakeKey? && KnowsOwn(db.remote, x, c) && HoldsFor(c)
    ensures var m := AtMakeKey(db, x, c, r); CleansUp(m.db.remote, x, m.call)
  {
    hide OneOfEach;
    match r.fate { case Done => case Refused => case Lost => }
  }

  lemma MakePolicyKnows(db: Db, x: RoomId, c: Call, r: Reply)
    requires c.pc.MakePolicy? && KnowsOwn(db.remote, x, c)
    ensures var m := AtMakePolicy(db, x, c, r); KnowsOwn(m.db.remote, x, m.call)
  {
    var m := AtMakePolicy(db, x, c, r);
    assert m.call.pc == if r.fate.Done? then RecordPolicy else RevokeKey;
    assert m.db.remote == if r.fate.Refused? then db.remote else db.remote.CreatePolicy(x);
    assert m.call.group == c.group && m.call.made == c.made && m.call.keyId == c.keyId;
    assert m.call.policy == if r.fate.Done? then Some(|db.remote.policies|) else None;
    hide AtMakePolicy;
    if r.fate.Refused? {} else {}
  }

  lemma MakePolicyTally(db: Db, targets: set<RoomId>, x: RoomId, c: Call, r: Reply)
    requires c.pc.MakePolicy? && TallyOk(db, x, c) && CallOk(db, targets, x, c) && RowOk(db, targets, x, c)
    ensures var m := AtMakePolicy(db, x, c, r); TallyOk(m.db, x, m.call)
  {
    var m := AtMakePolicy(db, x, c, r);
    MakePolicyKnows(db, x, c, r);
    assert CleansUp(m.db.remote, x, m.call);
    assert x in m.db.tables.rooms && m.db.tables.rooms[x].setupKeyId.Some?;
    hide KnowsOwn, CleansUp, CallOk, RowOk;
  }

  /** A call that asks for nothing new knows what it knew. */
  lemma KnowsOnward(rm: Remote, x: RoomId, c: Call, d: Call)
    requires KnowsOwn(rm, x, c)
    requires d.group == c.group && d.made == c.made && d.keyId == c.keyId && d.policy == c.policy
    requires BeforeGroup(d.pc) ==> BeforeGroup(c.pc)
    requires d.pc.MakeKey? ==> c.pc.MakeKey? || BeforeGroup(c.pc)
    requires BeforePolicy(d.pc) ==> BeforePolicy(c.pc)
    ensures KnowsOwn(rm, x, d)
  {
  }

  lemma RecordTally(db: Db, targets: set<RoomId>, x: RoomId, c: Call, r: Reply)
    requires c.pc.RecordKey? || c.pc.RecordPolicy?
    requires TallyOk(db, x, c) && CallOk(db, targets, x, c) && RowOk(db, targets, x, c)
    ensures var m := StepRecord(db, x, c, r); TallyOk(m.db, x, m.call)
  {
    var m := StepRecord(db, x, c, r);
    KnowsOnward(db.remote, x, c, m.call);
    assert BeforePolicy(c.pc) ==> PoliciesAre(db.remote, x, None);
    hide KnowsOwn, IdsOk, RowOk;
    match c.pc { case RecordKey => case _ => }
  }

  lemma CloseTally(db: Db, targets: set<RoomId>, x: RoomId, c: Call, r: Reply)
    requires c.pc.Activate? || c.pc.SaveResponse?
    requires TallyOk(db, x, c) && CallOk(db, targets, x, c) && RowOk(db, targets, x, c)
    ensures var m := StepClose(db, x, c, r); TallyOk(m.db, x, m.call)
  {
    var m := StepClose(db, x, c, r);
    KnowsOnward(db.remote, x, c, m.call);
    hide KnowsOwn, IdsOk;
    match c.pc { case Activate => case _ => }
  }

  /** b is a after deletions and revocations only. */
  ghost predicate Dies(a: Remote, b: Remote) {
    && |a.groups| == |b.groups| && |a.keys| == |b.keys| && |a.policies| == |b.policies|
    && (forall g :: 0 <= g < |a.groups| ==> b.groups[g].name == a.groups[g].name && b.groups[g].made == a.groups[g].made
                                            && (b.groups[g].live ==> a.groups[g].live))
    && (forall n :: 0 <= n < |a.keys| ==>
          b.keys[n].room == a.keys[n].room && (b.keys[n].state.Valid? ==> a.keys[n].state.Valid?)
                                          && (a.keys[n].state.Deleted? ==> b.keys[n].state.Deleted?))
    && (forall p :: 0 <= p < |a.policies| ==>
          b.policies[p].room == a.policies[p].room && (b.policies[p].live ==> a.policies[p].live))
  }

  lemma DyingKeepsTally(a: Db, b: Db, x: RoomId, c: Call)
    requires TallyOk(a, x, c) && Dies(a.remote, b.remote)
    requires x in a.tables.rooms <==> x in b.tables.rooms
    requires x in a.tables.rooms ==> b.tables.rooms[x] == a.tables.rooms[x].(status := b.tables.rooms[x].status)
    ensures TallyOk(b, x, c)
  {
  }

  lemma DropPolicyTally(db: Db, targets: set<RoomId>, x: RoomId, c: Call, r: Reply)
    requires c.pc.DropPolicy? && TallyOk(db, x, c) && CallOk(db, targets, x, c) && RowOk(db, targets, x, c)
    ensures var m := AtDropPolicy(db, c, r); TallyOk(m.db, x, m.call)
  {
    var m := AtDropPolicy(db, c, r);
    assert Dies(db.remote, m.db.remote);
    DyingKeepsTally(db, m.db, x, c);
    hide OneOfEach, Dies;
  }

  lemma RevokeKeyTally(db: Db, targets: set<RoomId>, x: RoomId, c: Call, r: Reply)
    requires c.pc.RevokeKey? && TallyOk(db, x, c) && CallOk(db, targets, x, c) && RowOk(db, targets, x, c)
    ensures var m := AtRevokeKey(db, c, r); TallyOk(m.db, x, m.call)
  {
    var m := AtRevokeKey(db, c, r);
    assert Dies(db.remote, m.db.remote);
    DyingKeepsTally(db, m.db, x, c);
    hide OneOfEach, Dies;
  }

  lemma DropGroupTally(db: Db, targets: set<RoomId>, x: RoomId, c: Call, r: Reply)
    requires c.pc.DropGroup? && TallyOk(db, x, c) && CallOk(db, targets, x, c) && RowOk(db, targets, x, c)
    ensures var m := AtDropGroup(db, c, r); TallyOk(m.db, x, m.call)
  {
    var m := AtDropGroup(db, c, r);
    assert Dies(db.remote, m.db.remote);
    DyingKeepsTally(db, m.db, x, c);
    hide OneOfEach, Dies;
  }

  lemma FailTally(db: Db, targets: set<RoomId>, x: RoomId, c: Call, r: Reply)
    requires c.pc.FailRoom? || c.pc.FailOp?
    requires TallyOk(db, x, c) && CallOk(db, targets, x, c) && RowOk(db, targets, x, c)
    ensures var m := StepFail(db, x, c, r); TallyOk(m.db, x, m.call)
  {
    var m := StepFail(db, x, c, r);
    KnowsOnward(db.remote, x, c, m.call);
    hide KnowsOwn, IdsOk;
    match c.pc { case FailRoom => case _ => }
  }

  lemma OwnTally(db: Db, targets: set<RoomId>, x: RoomId, c: Call, r: Reply)
    requires InFlight(c.pc) && TallyOk(db, x, c) && CallOk(db, targets, x, c) && RowOk(db, targets, x, c)
    ensures var m := StepCall(db, x, c, r); TallyOk(m.db, x, m.call)
  {
    hide TallyOk, CallOk, RowOk, StepGate, StepRecord, StepClose, StepFail, AtFindTheGroup, AtMakeGroup, AtMakeKey,
      AtMakePolicy, AtDropPolicy, AtRevokeKey, AtDropGroup;
    match c.pc {
      case Lookup | Reset | Insert | InsertRoom => GateTally(db, targets, x, c, r);
      case FindTheGroup => FindTheGroupTally(db, targets, x, c, r);
      case MakeGroup => MakeGroupTally(db, targets, x, c, r);
      case MakeKey => MakeKeyTally(db, targets, x, c, r);
      case MakePolicy => MakePolicyTally(db, targets, x, c, r);
      case RecordKey | RecordPolicy => RecordTally(db, targets, x, c, r);
      case Activate | SaveResponse => CloseTally(db, targets, x, c, r);
      case DropPolicy => DropPolicyTally(db, targets, x, c, r);
      case RevokeKey => RevokeKeyTally(db, targets, x, c, r);
      case DropGroup => DropGroupTally(db, targets, x, c, r);
      case FailRoom | FailOp => FailTally(db, targets, x, c, r);
    }
  }

  // ---------------------------------------------------------------- whole runs

  ghost predicate Nothing(rm: Remote, x: RoomId) {
    GroupsAre(rm, x, None) && KeysAre(rm, x, None) && PoliciesAre(rm, x, None)
  }

  ghost predicate Tallied(s: World) {
    && (forall x :: 0 <= x < |s.calls| ==> TallyOk(s.db, x, s.calls[x]))
    && (forall x: nat :: |s.calls| <= x ==> Nothing(s.db.remote, x))
  }

  lemma OthersTally(a: Db, b: Db, x: RoomId, y: RoomId, c: Call)
    requires TallyOk(a, y, c) && Confined(a, b, x) && x != y
    ensures TallyOk(b, y, c)
  {
    assert y in a.tables.rooms <==> y in b.tables.rooms;
    OthersSame(a.remote, b.remote, x, y);
    hide Confined;
  }

  /** What exists for another room is what existed. */
  lemma OthersSame(a: Remote, b: Remote, x: RoomId, y: RoomId)
    requires RemoteConfined(a, b, x) && x != y
    ensures OneOfEach(a, y) ==> OneOfEach(b, y)
    ensures forall id :: GroupsAre(a, y, id) ==> GroupsAre(b, y, id)
    ensures forall id :: KeysAre(a, y, id) ==> KeysAre(b, y, id)
    ensures forall id :: PoliciesAre(a, y, id) ==> PoliciesAre(b, y, id)
    ensures NoLivePolicy(a, y) ==> NoLivePolicy(b, y)
    ensures NoValidKey(a, y) ==> NoValidKey(b, y)
    ensures NoLiveGroup(a, y) ==> NoLiveGroup(b, y)
  {
  }

  lemma AdvanceTally(s: World, x: RoomId, r: Reply)
    requires Inv(s) && Tallied(s) && Enabled(s, Advance(x, r))
    ensures Tallied(Next(s, Advance(x, r)))
  {
    var m := StepCall(s.db, x, s.calls[x], r);
    assert CallOk(s.db, s.targets, x, s.calls[x]) && RowOk(s.db, s.targets, x, s.calls[x]);
    assert InFlight(s.calls[x].pc);
    hide Inv, TallyOk, RowOk;
    OwnTally(s.db, s.targets, x, s.calls[x], r);
    StepCallLocal(s.db, x, s.calls[x], r);
    hide StepCall, Nothing, Honest, Confined;
    forall y | 0 <= y < |s.calls| && y != x ensures TallyOk(m.db, y, s.calls[y]) {
      OthersTally(s.db, m.db, x, y, s.calls[y]);
    }
    forall y: nat | |s.calls| <= y ensures Nothing(m.db.remote, y) {
      NothingStays(s.db, m.db, x, y);
    }
  }

  lemma NothingStays(a: Db, b: Db, x: RoomId, y: RoomId)
    requires Nothing(a.remote, y) && Confined(a, b, x) && x != y
    ensures Nothing(b.remote, y)
  {
    OthersSame(a.remote, b.remote, x, y);
  }

  lemma DisableDies(db: Db, d: Disabling, fate: Fate, hit: Option<RoomId>)
    requires !d.at.Closed? && (d.at.Find? && hit.Some? ==> hit.value in db.tables.rooms)
    ensures OnlyDies(db, StepDisable(db, d, fate, hit).db)
  {
    match d.at { case Find => case Revoke => case Drop => case _ => }
  }

  lemma BootDies(db: Db, b: Boot, fate: Fate)
    requires BootOk(db, b)
    ensures OnlyDies(db, StepBoot(db, b, fate).db)
  {
    match b.at {
      case Fetch => case BootPolicy => case BootRevoke =>
      case BootKey => case BootGroup => case MarkRoom => case _ =>
    }
  }

  /** Remote resources die and rows change their status, nothing else. */
  ghost predicate OnlyDies(a: Db, b: Db) {
    && Dies(a.remote, b.remote) && a.tables.rooms.Keys == b.tables.rooms.Keys
    && forall x :: x in a.tables.rooms ==> b.tables.rooms[x] == a.tables.rooms[x].(status := b.tables.rooms[x].status)
  }

  lemma DyingTally(s: World, db: Db)
    requires Tallied(s) && OnlyDies(s.db, db)
    ensures Tallied(s.(db := db))
  {
    forall x | 0 <= x < |s.calls| ensures TallyOk(db, x, s.calls[x]) { DyingKeepsTally(s.db, db, x, s.calls[x]); }
    hide TallyOk, Nothing;
    forall x: nat | |s.calls| <= x ensures Nothing(db.remote, x) { NothingDies(s.db.remote, db.remote, x); }
  }

  lemma NothingDies(a: Remote, b: Remote, x: RoomId)
    requires Nothing(a, x) && Dies(a, b)
    ensures Nothing(b, x)
  {
  }

  lemma ForeignTally(a: Db, b: Db, name: RoomId, x: RoomId, c: Call)
    requires TallyOk(a, x, c) && b == a.(remote := a.remote.CreateGroup(name, false))
    ensures TallyOk(b, x, c)
  {
    ForeignSame(a.remote, name, x);
  }

  lemma ForeignSame(a: Remote, name: RoomId, x: RoomId)
    ensures var b := a.CreateGroup(name, false);
      && (OneOfEach(a, x) ==> OneOfEach(b, x))
      && (forall id :: GroupsAre(a, x, id) ==> GroupsAre(b, x, id))
      && (NoLiveGroup(a, x) ==> NoLiveGroup(b, x)) && (Nothing(a, x) ==> Nothing(b, x))
  {
  }

  lemma NewTally(db: Db, x: RoomId, key: IdemKey, code: Code)
    requires Nothing(db.remote, x) && x !in db.tables.rooms
    ensures TallyOk(db, x, NewCall(key, code))
  {
  }

  lemma CrashedTally(db: Db, x: RoomId, c: Call)
    requires TallyOk(db, x, c)
    ensures TallyOk(db, x, c.(pc := Crashed))
  {
    hide KnowsOwn;
    KnowsOnward(db.remote, x, c, c.(pc := Crashed));
    hide GroupsAre, KeysAre, PoliciesAre, NoLivePolicy, NoValidKey, NoLiveGroup;
  }

  lemma ForeignersTally(s: World, name: RoomId)
    requires Tallied(s)
    ensures Tallied(Next(s, ForeignGroup(name)))
  {
    var t := Next(s, ForeignGroup(name));
    forall x | 0 <= x < |s.calls| ensures TallyOk(t.db, x, s.calls[x]) {
      ForeignTally(s.db, t.db, name, x, s.calls[x]);
    }
    forall x: nat | |s.calls| <= x ensures Nothing(t.db.remote, x) { ForeignSame(s.db.remote, name, x); }
    hide TallyOk;
  }

  lemma CalmTally(s: World, a: Action)
    requires Inv(s) && Tallied(s) && Enabled(s, a)
    requires !a.Advance? && !a.AdvanceDisable? && !a.Repair?
    ensures Tallied(Next(s, a))
  {
    hide TallyOk, Nothing;
    match a
    case Arrive(key, code) =>
      assert |s.calls| !in s.db.tables.rooms;
      NewTally(s.db, |s.calls|, key, code);
      hide Inv;
    case Crash =>
      forall x | 0 <= x < |s.calls| ensures TallyOk(s.db, x, DropCall(s.calls[x])) {
        CrashedTally(s.db, x, s.calls[x]);
      }
      hide Inv, DropCall;
    case ForeignGroup(name) => ForeignersTally(s, name); hide Inv, Next, Tallied;
    case _ => hide Inv;
  }

  lemma TallyNext(s: World, a: Action)
    requires Inv(s) && Tallied(s) && Enabled(s, a)
    ensures Tallied(Next(s, a))
  {
    hide TallyOk, Nothing, OnlyDies;
    match a
    case Advance(x, r) => AdvanceTally(s, x, r); hide Next;
    case AdvanceDisable(i, fate, hit) =>
      DisableDies(s.db, s.disables[i], fate, hit);
      DyingTally(s, StepDisable(s.db, s.disables[i], fate, hit).db);
      hide StepDisable;
    case Repair(fate) =>
      BootDies(s.db, s.phase.boot, fate);
      DyingTally(s, StepBoot(s.db, s.phase.boot, fate).db);
      hide StepBoot;
    case _ => CalmTally(s, a); hide Next;
  }

  lemma {:induction false} TallyAlong(w: seq<World>, acts: seq<Action>, n: nat)
    requires IsRun(w, acts) && Init(w[0]) && n < |w|
    ensures Tallied(w[n])
  {
    if n > 0 {
      TallyAlong(w, acts, n - 1);
      RunInv(w, acts, n - 1);
      TallyNext(w[n - 1], acts[n - 1]);
    }
  }

  /** At every moment of every run, hence at every crash point: one group, one key and one
      policy at most were made for room x. Before its row records a key, no policy exists,
      so at most the group and the key are unrecorded; from then on every group and key
      made for it is recorded, so at most the policy is not; and once the row records a
      policy, everything is recorded. */
  lemma UnrecordedResources(w: seq<World>, acts: seq<Action>, n: nat, x: RoomId)
    requires IsRun(w, acts) && Init(w[0]) && n < |w|
    ensures OneOfEach(w[n].db.remote, x)
    ensures x !in w[n].db.tables.rooms ==> Nothing(w[n].db.remote, x)
    ensures x in w[n].db.tables.rooms ==>
      var row, rm := w[n].db.tables.rooms[x], w[n].db.remote;
      && (row.setupKeyId.None? ==> PoliciesAre(rm, x, None))
      && (row.setupKeyId.Some? ==> (GroupsAre(rm, x, row.groupId) && KeysAre(rm, x, row.setupKeyId)))
      && (row.policyId.Some? ==> PoliciesAre(rm, x, row.policyId))
  {
    TallyAlong(w, acts, n);
    RunInv(w, acts, n);
    if x < |w[n].calls| {
      assert TallyOk(w[n].db, x, w[n].calls[x]) && RowOk(w[n].db, w[n].targets, x, w[n].calls[x]);
      assert CallOk(w[n].db, w[n].targets, x, w[n].calls[x]);
    } else {
      assert Nothing(w[n].db.remote, x);
    }
    hide Inv, IsRun, Init, Alive;
  }

  /** A Create that gave up through fail(), with no creation Lost and no delete Refused, left
      no live policy, no live group of its own and no valid key, then and ever after; one
      that gave up after recording its policy left all three identifiers in its row. */
  lemma FailedCreateLeaves(w: seq<World>, acts: seq<Action>, n: nat, x: RoomId)
    requires IsRun(w, acts) && Init(w[0]) && n < |w| && x < |w[n].calls|
    ensures w[n].calls[x].pc == Out(Unwound) && w[n].calls[x].sure && w[n].calls[x].tidy ==>
              NothingLives(w[n].db.remote, x)
    ensures w[n].calls[x].pc == Out(Tail) ==>
      && x in w[n].db.tables.rooms
      && var row := w[n].db.tables.rooms[x];
      && row.groupId.Some? && row.setupKeyId.Some? && row.policyId.Some?
      && GroupsAre(w[n].db.remote, x, row.groupId) && KeysAre(w[n].db.remote, x, row.setupKeyId)
      && PoliciesAre(w[n].db.remote, x, row.policyId)
  {
    TallyAlong(w, acts, n);
    assert TallyOk(w[n].db, x, w[n].calls[x]);
    if w[n].calls[x].pc == Out(Tail) { UnrecordedResources(w, acts, n, x); }
    hide IsRun, Init;
  }
}
