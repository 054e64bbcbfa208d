/** What a Reconcile reports, whatever is answered: it ends; it reports success exactly when
    every lookup and every statement it made was answered, the deletes being ignored; then
    every listed record is in error; otherwise it has stopped at one record and touched none
    of those after it. */
module ReconcileAnswers {
  import opened Outcomes
  import opened RoomTables
  import opened NetBirdState
  import opened Provisioning
  import opened ProvisioningInvariant
  import opened CallTraces

  // ---------------------------------------------------------------- what it is told

  /** A call whose error it looks at: GetRoom, SetStatus, SaveOperation. */
  predicate Matters(at: BootPc) { at.Fetch? || at.MarkRoom? || at.MarkOp? }

  // The most calls it can still make.
  function CallsLeft(b: Boot): nat {
    if !Working(b) then 0 else
    7 * (|b.todo| - 1) + match b.at
                         case Fetch => 7
                         case BootPolicy => 6
                         case BootRevoke => 5
                         case BootKey => 4
                         case BootGroup => 3
                         case MarkRoom => 2
                         case MarkOp => 1
  }

  lemma StepAnswers(db: Db, b: Boot, fate: Fate)
    requires CanBoot(b)
    ensures var e := StepBoot(db, b, fate).boot;
      && CallsLeft(e) < CallsLeft(b) && (e.Ended? || CanBoot(e))
      && (e == Ended(false) <==> Matters(b.at) && !fate.Done?)
  {
    match b.at {
      case Fetch => case BootPolicy => case BootRevoke =>
      case BootKey => case BootGroup => case MarkRoom => case _ =>
    }
  }

  /** Every such call among its first n was answered. */
  ghost predicate AllAnswered(db: Db, b: Boot, fates: nat -> Fate, n: nat) {
    forall i: nat :: i < n && CanBoot(AmidBoot(db, b, fates, i).boot) && Matters(AmidBoot(db, b, fates, i).boot.at) ==>
      fates(i).Done?
  }

  lemma AnsweredNext(db: Db, b: Boot, fates: nat -> Fate, n: nat)
    ensures AllAnswered(db, b, fates, n) <==>
              n == 0 || (AllAnswered(db, b, fates, n - 1) &&
                         var e := AmidBoot(db, b, fates, n - 1).boot;
                         CanBoot(e) && Matters(e.at) ==> fates(n - 1).Done?)
  {
    hide AmidBoot;
  }

  lemma {:induction false} OkIff(db: Db, b: Boot, fates: nat -> Fate, n: nat)
    requires CanBoot(b) || b == Ended(true)
    ensures var e := AmidBoot(db, b, fates, n).boot;
      && (CanBoot(e) || e.Ended?) && CallsLeft(e) <= (if n <= CallsLeft(b) then CallsLeft(b) - n else 0)
      && (e != Ended(false) <==> AllAnswered(db, b, fates, n))
  {
    hide StepBoot, AllAnswered;
    AnsweredNext(db, b, fates, n);
    if n > 0 {
      OkIff(db, b, fates, n - 1);
      var m := AmidBoot(db, b, fates, n - 1);
      if CanBoot(m.boot) { StepAnswers(m.db, m.boot, fates(n - 1)); }
    }
  }

  /** The calls that a row that was found leads to, up to its being marked. */
  function AllDeletes(row: Room): seq<BootPc> {
    (if row.policyId.Some? then [BootPolicy] else [])
    + (if row.setupKeyId.Some? then [BootRevoke, BootKey] else [])
    + (if row.groupId.Some? then [BootGroup] else [])
    + [MarkRoom]
  }

  // The calls still before it.
  function DeletesLeft(b: Boot): seq<BootPc>
    requires OnRow(b)
  {
    var row := b.row.value;
    match b.at
    case BootPolicy => AllDeletes(row)
    case BootRevoke => AllDeletes(row.(policyId := None))
    case BootKey => [BootKey] + AllDeletes(row.(policyId := None, setupKeyId := None))
    case BootGroup => AllDeletes(row.(policyId := None, setupKeyId := None))
    case _ => [MarkRoom]
  }

  // It works on a row it has found, and is at a call that the row asks for.
  predicate OnRow(b: Boot) {
    && Working(b) && b.row.Some? && !b.at.Fetch? && !b.at.MarkOp?
    && (b.at.BootPolicy? ==> b.row.value.policyId.Some?)
    && (b.at.BootRevoke? || b.at.BootKey? ==> b.row.value.setupKeyId.Some?)
    && (b.at.BootGroup? ==> b.row.value.groupId.Some?)
  }

  lemma DeletesStep(db: Db, b: Boot, fate: Fate)
    requires OnRow(b) && !b.at.MarkRoom?
    ensures var e := StepBoot(db, b, fate).boot;
      OnRow(e) && e.todo == b.todo && DeletesLeft(b) == [b.at] + DeletesLeft(e)
  {
    match b.at { case BootPolicy => case BootRevoke => case BootKey => case _ => }
  }

  lemma FetchStep(db: Db, b: Boot)
    requires Working(b) && b.at.Fetch? && b.todo[0].roomId in db.tables.rooms
    ensures var e := StepBoot(db, b, Done).boot;
      OnRow(e) && e.todo == b.todo && DeletesLeft(e) == AllDeletes(db.tables.rooms[b.todo[0].roomId])
  {
  }

  /** Once the row of a record is found, the policy, the key twice, and the group that it names
      are asked for in this order, whatever is answered, and then the room is marked. */
  lemma {:induction false} DeletesAllTried(db: Db, b: Boot, fates: nat -> Fate, i: nat)
    requires Working(b) && b.at.Fetch? && b.todo[0].roomId in db.tables.rooms && fates(0).Done?
    requires i < |AllDeletes(db.tables.rooms[b.todo[0].roomId])|
    ensures var e := AmidBoot(db, b, fates, i + 1).boot;
      var all := AllDeletes(db.tables.rooms[b.todo[0].roomId]);
      OnRow(e) && e.todo == b.todo && e.at == all[i] && DeletesLeft(e) == all[i..]
  {
    hide StepBoot, AllDeletes, OnRow, DeletesLeft;
    var all := AllDeletes(db.tables.rooms[b.todo[0].roomId]);
    if i == 0 {
      FetchStep(db, b);
      assert AmidBoot(db, b, fates, 0) == BootStep(db, b) && AmidBoot(db, b, fates, 1) == StepBoot(db, b, Done);
      assert all[0..] == all;
      HeadIsAt(AmidBoot(db, b, fates, 1).boot);
    } else {
      DeletesAllTried(db, b, fates, i - 1);
      var m := AmidBoot(db, b, fates, i);
      NextTried(m, all, i, fates(i));
      assert AmidBoot(db, b, fates, i + 1) == StepBoot(m.db, m.boot, fates(i));
    }
  }

  lemma NextTried(m: BootStep, all: seq<BootPc>, i: nat, fate: Fate)
    requires 0 < i < |all| && OnRow(m.boot) && DeletesLeft(m.boot) == all[i - 1..]
    ensures CanBoot(m.boot)
    ensures var e := StepBoot(m.db, m.boot, fate).boot;
      OnRow(e) && e.todo == m.boot.todo && e.at == all[i] && DeletesLeft(e) == all[i..]
  {
    assert all[i - 1..] == [all[i - 1]] + all[i..];
    OnlyMarkIsLast(m.boot);
    hide StepBoot, DeletesLeft;
    DeletesStep(m.db, m.boot, fate);
    HeadIsAt(StepBoot(m.db, m.boot, fate).boot);
  }

  lemma OnlyMarkIsLast(b: Boot)
    requires OnRow(b)
    ensures b.at.MarkRoom? ==> |DeletesLeft(b)| == 1
  {
  }

  lemma HeadIsAt(b: Boot)
    requires OnRow(b)
    ensures DeletesLeft(b) != [] && DeletesLeft(b)[0] == b.at
  {
  }

  /** What the call asked for is so: the policy or the group is gone, the key is not valid. */
  predicate Deleted(rm: Remote, b: Boot) {
    OnRow(b) ==>
      var row := b.row.value;
      && (b.at.BootPolicy? && rm.HasPolicy(row.policyId) ==> !rm.policies[row.policyId.value].live)
      && (b.at.BootRevoke? && rm.HasKey(row.setupKeyId) ==> !rm.keys[row.setupKeyId.value].state.Valid?)
      && (b.at.BootKey? && rm.HasKey(row.setupKeyId) ==> rm.keys[row.setupKeyId.value].state.Deleted?)
      && (b.at.BootGroup? && rm.HasGroup(row.groupId) ==> !rm.groups[row.groupId.value].live)
  }

  lemma StepDeletes(db: Db, b: Boot, fate: Fate)
    requires CanBoot(b) && fate.Applied()
    ensures Deleted(StepBoot(db, b, fate).db.remote, b)
  {
    match b.at {
      case Fetch => case BootPolicy => case BootRevoke =>
      case BootKey => case BootGroup => case MarkRoom => case _ =>
    }
  }

  lemma StaysDeleted(db: Db, b: Boot, fate: Fate, e: Boot)
    requires CanBoot(b) && Deleted(db.remote, e)
    ensures Deleted(StepBoot(db, b, fate).db.remote, e)
  {
    match b.at {
      case Fetch => case BootPolicy => case BootRevoke =>
      case BootKey => case BootGroup => case MarkRoom => case _ =>
    }
  }

  /** Every delete that takes effect, heard or not, holds to the end, whatever becomes of the
      others: a key that could be revoked but not deleted is not valid any more. */
  lemma {:induction false} DeletesLast(db: Db, b: Boot, fates: nat -> Fate, i: nat, n: nat)
    requires i < n && CanBoot(AmidBoot(db, b, fates, i).boot) && fates(i).Applied()
    ensures Deleted(AmidBoot(db, b, fates, n).db.remote, AmidBoot(db, b, fates, i).boot)
  {
    hide StepBoot, Deleted;
    var m := AmidBoot(db, b, fates, n - 1);
    if i == n - 1 {
      StepDeletes(m.db, m.boot, fates(i));
    } else {
      DeletesLast(db, b, fates, i, n - 1);
      if CanBoot(m.boot) { StaysDeleted(m.db, m.boot, fates(n - 1), AmidBoot(db, b, fates, i).boot); }
    }
  }

  // ---------------------------------------------------------------- what it does to the tables

  /** Keys of their own, rooms of their own, and a record each. */
  ghost predicate Listed(ops: map<IdemKey, Operation>, todo: seq<Pending>) {
    && (forall i :: 0 <= i < |todo| ==> todo[i].key in ops)
    && (forall i, j :: 0 <= i < j < |todo| ==> todo[i].key != todo[j].key && todo[i].roomId != todo[j].roomId)
  }

  lemma ListingIsListed(s: World, todo: seq<Pending>)
    requires Inv(s) && IsListing(s.db.tables.ops, todo)
    ensures Listed(s.db.tables.ops, todo)
  {
    forall i, j | 0 <= i < j < |todo| ensures todo[i].roomId != todo[j].roomId {
      assert OpOk(s.calls, todo[i].key, s.db.tables.ops[todo[i].key]);
      assert OpOk(s.calls, todo[j].key, s.db.tables.ops[todo[j].key]);
    }
  }

  /** The record is in error, and its room too if there is one. */
  predicate Failed(tables: Tables, p: Pending) {
    && p.key in tables.ops && tables.ops[p.key].status.Error?
    && (p.roomId in tables.rooms ==> tables.rooms[p.roomId].status.Error?)
  }

  /** Nobody has looked at it. */
  predicate Unseen(a: Tables, b: Tables, p: Pending) {
    && (p.key in a.ops <==> p.key in b.ops) && (p.key in a.ops ==> b.ops[p.key] == a.ops[p.key])
    && (p.roomId in a.rooms <==> p.roomId in b.rooms)
    && (p.roomId in a.rooms ==> b.rooms[p.roomId] == a.rooms[p.roomId])
  }

  /** The first d records are done with, and those after the next one are as they were. */
  ghost predicate DoneTo(a: Tables, b: Tables, todo: seq<Pending>, d: nat) {
    && d <= |todo| && Listed(a.ops, todo) && b.ops.Keys == a.ops.Keys
    && (forall e :: 0 <= e < d ==> Failed(b, todo[e]))
    && (forall e :: d < e < |todo| ==> Unseen(a, b, todo[e]))
  }

  // The room of a record about to be marked is marked.
  predicate MarkedFirst(tables: Tables, b: Boot) {
    Working(b) && b.at.MarkOp? && b.todo[0].roomId in tables.rooms ==> tables.rooms[b.todo[0].roomId].status.Error?
  }

  /** One call: the record at hand, its room, and nobody else's. */
  lemma StepTables(db: Db, b: Boot, fate: Fate)
    requires CanBoot(b) && b.todo[0].key in db.tables.ops && MarkedFirst(db.tables, b)
    ensures var m, p := StepBoot(db, b, fate), b.todo[0];
      && m.db.tables.ops.Keys == db.tables.ops.Keys && MarkedFirst(m.db.tables, m.boot)
      && (forall q: Pending :: q.key != p.key && q.roomId != p.roomId ==> Unseen(db.tables, m.db.tables, q))
      && (m.boot.Reconciling? && |m.boot.todo| == |b.todo| ==> m.boot.todo == b.todo)
      && (m.boot != Ended(false) && !(m.boot.Reconciling? && |m.boot.todo| == |b.todo|) ==>
            m.boot == Rest(b.todo[1..]) && Failed(m.db.tables, p))
  {
    match b.at {
      case Fetch => case BootPolicy => case BootRevoke =>
      case BootKey => case BootGroup => case MarkRoom => case _ =>
    }
  }

  lemma UnseenTwice(a: Tables, b: Tables, c: Tables, p: Pending)
    requires Unseen(a, b, p) && Unseen(b, c, p)
    ensures Unseen(a, c, p)
  {
  }

  lemma FailedStays(a: Tables, b: Tables, p: Pending)
    requires Failed(a, p) && Unseen(a, b, p)
    ensures Failed(b, p)
  {
  }

  lemma DoneToNext(db0: Db, db: Db, b: Boot, fate: Fate, todo: seq<Pending>, d: nat)
    requires CanBoot(b) && d < |todo| && b.todo == todo[d..] && DoneTo(db0.tables, db.tables, todo, d)
    requires MarkedFirst(db.tables, b)
    ensures var m := StepBoot(db, b, fate);
      && MarkedFirst(m.db.tables, m.boot) && DoneTo(db0.tables, m.db.tables, todo, d)
      && (m.boot == Ended(true) ==> d + 1 == |todo| && DoneTo(db0.tables, m.db.tables, todo, d + 1))
      && (m.boot.Reconciling? ==>
            || m.boot.todo == todo[d..]
            || (d + 1 < |todo| && m.boot.todo == todo[d + 1..] && DoneTo(db0.tables, m.db.tables, todo, d + 1)))
  {
    var m := StepBoot(db, b, fate);
    assert b.todo[0] == todo[d] && b.todo[1..] == todo[d + 1..];
    StepTables(db, b, fate);
    hide StepBoot, Unseen, Failed, MarkedFirst;
    forall e | 0 <= e < |todo| && e != d ensures Unseen(db.tables, m.db.tables, todo[e]) {}
    forall e | 0 <= e < d ensures Failed(m.db.tables, todo[e]) { FailedStays(db.tables, m.db.tables, todo[e]); }
    forall e | d < e < |todo| ensures Unseen(db0.tables, m.db.tables, todo[e]) {
      UnseenTwice(db0.tables, db.tables, m.db.tables, todo[e]);
    }
  }

  // How far it is: nothing it has not come to is touched.
  ghost predicate GotTo(db0: Db, todo: seq<Pending>, m: BootStep, d: nat) {
    && DoneTo(db0.tables, m.db.tables, todo, d) && MarkedFirst(m.db.tables, m.boot)
    && (m.boot == Ended(true) ==> d == |todo|)
    && (m.boot == Ended(false) ==> d < |todo|)
    && (m.boot.Reconciling? ==> d < |todo| && m.boot.todo == todo[d..])
  }

  lemma {:induction false} GetsTo(db: Db, todo: seq<Pending>, fates: nat -> Fate, n: nat) returns (d: nat)
    requires Listed(db.tables.ops, todo)
    ensures GotTo(db, todo, AmidBoot(db, Rest(todo), fates, n), d)
  {
    hide StepBoot, DoneTo;
    if n == 0 {
      d := if todo == [] then |todo| else 0;
      assert todo[0..] == todo;
      assert DoneTo(db.tables, db.tables, todo, 0) by { NothingDone(db.tables, todo); }
    } else {
      d := GetsTo(db, todo, fates, n - 1);
      var m := AmidBoot(db, Rest(todo), fates, n - 1);
      if CanBoot(m.boot) {
        DoneToNext(db, m.db, m.boot, fates(n - 1), todo, d);
        var e := StepBoot(m.db, m.boot, fates(n - 1)).boot;
        if e == Ended(true) || (e.Reconciling? && e.todo != todo[d..]) { d := d + 1; }
      }
    }
  }

  lemma NothingDone(tables: Tables, todo: seq<Pending>)
    requires Listed(tables.ops, todo)
    ensures DoneTo(tables, tables, todo, 0)
  {
  }

  /** Reconcile over the records still creating, however it is answered. It ends after seven
      calls a record at most. It reports success if and only if every GetRoom, SetStatus and
      SaveOperation it made was answered; then every listed record is in error. Otherwise it
      stopped at some record: those before it are in error, those after it are untouched. */
  lemma ReconcileEnds(s: World, todo: seq<Pending>, fates: nat -> Fate, n: nat) returns (d: nat)
    requires Inv(s) && IsListing(s.db.tables.ops, todo) && n >= 7 * |todo|
    ensures var m := AmidBoot(s.db, Rest(todo), fates, n);
      && m.boot.Ended?
      && (m.boot.ok <==> AllAnswered(s.db, Rest(todo), fates, n))
      && (m.boot.ok <==> d == |todo|) && d <= |todo|
      && (forall e :: 0 <= e < d ==> Failed(m.db.tables, todo[e]))
      && (forall e :: d < e < |todo| ==> Unseen(s.db.tables, m.db.tables, todo[e]))
  {
    hide StepBoot, AmidBoot, Inv, IsListing;
    ListingIsListed(s, todo);
    OkIff(s.db, Rest(todo), fates, n);
    d := GetsTo(s.db, todo, fates, n);
  }
}
