/** What a Create answers, from its answers: it ends after fifteen calls at most; the first
    call that is not answered Done decides how it fails; if none is refused it does not fail,
    but for a code that is taken; and nobody in its way, it succeeds. */
module CreateAnswers {
  import opened Outcomes
  import opened RoomTables
  import opened NetBirdState
  import opened Provisioning
  import opened ProvisioningInvariant
  import opened ProvisioningIdempotence
  import opened ProvisioningRetries
  import opened SoloRuns
  import opened CallTraces

  // ---------------------------------------------------------------- it ends

  // The most calls it can still make.
  function CallsLeft(pc: Pc): nat {
    match pc
    case Lookup => 15
    case Reset => 14
    case Insert => 13
    case InsertRoom => 12
    case FindTheGroup => 11
    case MakeGroup => 10
    case MakeKey => 9
    case RecordKey => 8
    case MakePolicy => 7
    case RecordPolicy => 6
    case DropPolicy => 5
    case RevokeKey => 4
    case DropGroup => 3
    case FailRoom | Activate => 2
    case FailOp | SaveResponse => 1
    case Finished(_) | Crashed => 0
  }

  // ---------------------------------------------------------------- the step and its reply

  /** Not on its way out. */
  predicate Forward(pc: Pc) { InFlight(pc) && !Unwinding(pc) }

  /** How a Create fails whose first refused call is this one. */
  function ExitAt(pc: Pc): Exit {
    match pc
    case Lookup | Reset | Insert | InsertRoom => Early
    case Activate | SaveResponse => Tail
    case _ => Unwound
  }

  // Its last call was this one, and it was answered.
  predicate AnsweredAt(db: Db, x: RoomId, c: Call, result: Result) {
    match result
    case Success(response) =>
      || (c.pc.Lookup? && c.key in db.tables.ops && Open(db.tables.ops[c.key].response) == Some(response))
      || (c.pc == (if c.key == NO_KEY then Activate else SaveResponse) && response == Own(x, c))
    case InProgress => c.key in db.tables.ops && (c.pc.Lookup? ==> db.tables.ops[c.key].status.Creating?)
    case Failed(Early) =>
      || (c.pc.InsertRoom? && db.tables.Clashes(x, Digest(c.code)))
      || (c.pc.Lookup? && c.key in db.tables.ops && Open(db.tables.ops[c.key].response).None?)
    case Failed(_) => false
  }

  /** One step forward: an answer leads on or ends the call with it; a refusal leads to the
      exit of this place, at once or through the compensation. */
  predicate Leads(db: Db, x: RoomId, c: Call, r: Reply, d: Call) {
    && d.key == c.key && CallsLeft(d.pc) < CallsLeft(c.pc) && !d.pc.Crashed?
    && (r.fate.Done? ==>
          if d.pc.Finished? then AnsweredAt(db, x, c, d.pc.result) else Forward(d.pc))
    && (!r.fate.Done? ==>
          d.pc == Out(ExitAt(c.pc)) || (Unwinding(d.pc) && ExitAt(c.pc) == Unwound))
  }

  // Only a call with a key saves a response.
  predicate Apt(c: Call) { c.pc.SaveResponse? ==> c.key != NO_KEY }

  predicate WellLed(db: Db, x: RoomId, c: Call, r: Reply, d: Call) { Leads(db, x, c, r, d) && Apt(d) }

  lemma LookupLeads(db: Db, x: RoomId, c: Call, r: Reply)
    requires c.pc.Lookup?
    ensures WellLed(db, x, c, r, AtLookup(db, c, r).call)
  {
    var d := AtLookup(db, c, r).call;
    if r.fate.Done? && c.key in db.tables.ops {
      assert d.pc == AfterLookup(db.tables.ops[c.key]) && d.key == c.key;
      RecordLeadsOn(db, x, c, d.pc);
    }
    hide AfterLookup, AnsweredAt;
  }

  lemma RecordLeadsOn(db: Db, x: RoomId, c: Call, pc: Pc)
    requires c.pc.Lookup? && c.key in db.tables.ops && pc == AfterLookup(db.tables.ops[c.key])
    ensures pc.Finished? || pc.Reset?
    ensures pc.Finished? ==> AnsweredAt(db, x, c, pc.result)
  {
  }

  lemma ResetLeads(db: Db, x: RoomId, c: Call, r: Reply)
    requires c.pc.Reset?
    ensures WellLed(db, x, c, r, AtReset(db, x, c, r).call)
  {
  }

  lemma InsertLeads(db: Db, x: RoomId, c: Call, r: Reply)
    requires c.pc.Insert?
    ensures WellLed(db, x, c, r, AtInsert(db, x, c, r).call)
  {
  }

  lemma InsertRoomLeads(db: Db, x: RoomId, c: Call, r: Reply)
    requires c.pc.InsertRoom?
    ensures WellLed(db, x, c, r, AtInsertRoom(db, x, c, r).call)
  {
    hide Tables.Clashes, Tables.CreateRoom;
  }

  lemma GateLeads(db: Db, x: RoomId, c: Call, r: Reply)
    requires BeforeRow(c.pc)
    ensures WellLed(db, x, c, r, StepGate(db, x, c, r).call)
  {
    hide WellLed, AtLookup, AtReset, AtInsert, AtInsertRoom;
    match c.pc {
      case Lookup => LookupLeads(db, x, c, r);
      case Reset => ResetLeads(db, x, c, r);
      case Insert => InsertLeads(db, x, c, r);
      case _ => InsertRoomLeads(db, x, c, r);
    }
  }

  lemma MakeLeads(db: Db, x: RoomId, c: Call, r: Reply)
    requires c.pc.FindTheGroup? || c.pc.MakeGroup? || c.pc.MakeKey? || c.pc.MakePolicy?
    ensures WellLed(db, x, c, r, StepMake(db, x, c, r).call)
  {
    match c.pc { case FindTheGroup => case MakeGroup => case MakeKey => case _ => }
  }

  lemma RecordLeads(db: Db, x: RoomId, c: Call, r: Reply)
    requires c.pc.RecordKey? || c.pc.RecordPolicy?
    ensures WellLed(db, x, c, r, StepRecord(db, x, c, r).call)
  {
  }

  lemma CloseLeads(db: Db, x: RoomId, c: Call, r: Reply)
    requires c.pc.Activate? || c.pc.SaveResponse?
    requires Apt(c)
    ensures WellLed(db, x, c, r, StepClose(db, x, c, r).call)
  {
  }

  lemma StepLeads(db: Db, x: RoomId, c: Call, r: Reply)
    requires Forward(c.pc) && Apt(c)
    ensures WellLed(db, x, c, r, StepCall(db, x, c, r).call)
  {
    hide WellLed, Apt, StepGate, StepMake, StepRecord, StepClose, StepUndo, StepFail;
    match c.pc {
      case Lookup | Reset | Insert | InsertRoom => GateLeads(db, x, c, r);
      case FindTheGroup | MakeGroup | MakeKey | MakePolicy => MakeLeads(db, x, c, r);
      case RecordKey | RecordPolicy => RecordLeads(db, x, c, r);
      case _ => CloseLeads(db, x, c, r);
    }
  }

  predicate WindsDown(c: Call, d: Call) {
    d.key == c.key && CallsLeft(d.pc) < CallsLeft(c.pc) && (Unwinding(d.pc) || d.pc == Out(Unwound))
  }

  lemma UndoLeads(db: Db, x: RoomId, c: Call, r: Reply)
    requires c.pc.DropPolicy? || c.pc.RevokeKey? || c.pc.DropGroup?
    ensures WindsDown(c, StepUndo(db, x, c, r).call)
  {
    match c.pc { case DropPolicy => case RevokeKey => case _ => }
  }

  lemma FailLeads(db: Db, x: RoomId, c: Call, r: Reply)
    requires c.pc.FailRoom? || c.pc.FailOp?
    ensures WindsDown(c, StepFail(db, x, c, r).call)
  {
  }

  lemma UnwindingLeads(db: Db, x: RoomId, c: Call, r: Reply)
    requires Unwinding(c.pc)
    ensures WindsDown(c, StepCall(db, x, c, r).call)
  {
    hide WindsDown, StepGate, StepMake, StepRecord, StepClose, StepUndo, StepFail;
    match c.pc {
      case DropPolicy | RevokeKey | DropGroup => UndoLeads(db, x, c, r);
      case _ => FailLeads(db, x, c, r);
    }
  }

  // ---------------------------------------------------------------- the first refusal

  /** The first n of its calls are all answered. */
  predicate Heard(moves: nat -> Move, n: nat) { forall i: nat :: i < n ==> moves(i).reply.fate.Done? }

  // The database that its call number n finds.
  function Found(db: Db, x: RoomId, c: Call, moves: nat -> Move, n: nat): Db {
    moves(n).others(Amid(db, x, c, moves, n).db)
  }

  /** What has become of a Create after n answered calls. */
  lemma {:induction false} HeardAlong(db: Db, x: RoomId, c: Call, moves: nat -> Move, n: nat)
    requires Forward(c.pc) && Apt(c) && Heard(moves, n)
    ensures var d := Amid(db, x, c, moves, n).call;
      if Forward(d.pc) then d.key == c.key && Apt(d) && CallsLeft(d.pc) + n <= CallsLeft(c.pc)
      else d.pc.Finished? && exists m :: 0 <= m < n && var e := Amid(db, x, c, moves, m).call;
             Forward(e.pc) && e.key == c.key && AnsweredAt(Found(db, x, c, moves, m), x, e, d.pc.result)
  {
    hide StepCall, AnsweredAt;
    if n > 0 {
      HeardAlong(db, x, c, moves, n - 1);
      var e := Amid(db, x, c, moves, n - 1).call;
      if Forward(e.pc) { StepLeads(Found(db, x, c, moves, n - 1), x, e, moves(n - 1).reply); }
    }
  }

  // On its way out, or out, with calls to spare.
  predicate GoingOut(c: Call, n: nat, total: nat) {
    (Unwinding(c.pc) || c.pc == Out(Unwound)) && (InFlight(c.pc) ==> CallsLeft(c.pc) + n <= total)
  }

  lemma GoesOut(before: Db, x: RoomId, c: Call, r: Reply, n: nat, total: nat)
    requires GoingOut(c, n, total) && InFlight(c.pc)
    ensures GoingOut(StepCall(before, x, c, r).call, n + 1, total)
  {
    UnwindingLeads(before, x, c, r);
    hide StepCall;
  }

  lemma {:induction false} UnwindingAlong(db: Db, x: RoomId, c: Call, moves: nat -> Move, f: nat, n: nat, total: nat)
    requires f <= n && GoingOut(Amid(db, x, c, moves, f).call, f, total)
    ensures GoingOut(Amid(db, x, c, moves, n).call, n, total)
  {
    hide StepCall, GoingOut;
    if f < n {
      UnwindingAlong(db, x, c, moves, f, n - 1, total);
      var e := Amid(db, x, c, moves, n - 1).call;
      if InFlight(e.pc) {
        GoesOut(Found(db, x, c, moves, n - 1), x, e, moves(n - 1).reply, n - 1, total);
      } else {
        StaysOut(e, n - 1, total);
      }
    }
  }

  lemma StaysOut(c: Call, n: nat, total: nat)
    requires GoingOut(c, n, total) && !InFlight(c.pc)
    ensures GoingOut(c, n + 1, total)
  {
  }

  /** The first refusal decides: whatever the others do and whatever is answered afterwards, the
      call fails early, through the compensation, or in its tail, as the place of that refusal
      says. */
  lemma FirstRefusalDecides(db: Db, x: RoomId, c: Call, moves: nat -> Move, f: nat, n: nat)
    requires Forward(c.pc) && Apt(c) && f < n && Heard(moves, f) && !moves(f).reply.fate.Done?
    requires InFlight(Amid(db, x, c, moves, f).call.pc) && !InFlight(Amid(db, x, c, moves, n).call.pc)
    ensures Amid(db, x, c, moves, n).call.pc == Out(ExitAt(Amid(db, x, c, moves, f).call.pc))
  {
    hide StepCall, Amid, GoingOut, ExitAt, CallsLeft, Apt, Heard;
    RefusedAt(db, x, c, moves, f);
    var e, d := Amid(db, x, c, moves, f).call, Amid(db, x, c, moves, f + 1).call;
    if d.pc == Out(ExitAt(e.pc)) {
      AmidStops(db, x, c, moves, f + 1, n);
    } else {
      StartsOut(d, f + 1);
      UnwindingAlong(db, x, c, moves, f + 1, n, CallsLeft(d.pc) + f + 1);
      IsOut(Amid(db, x, c, moves, n).call, n, CallsLeft(d.pc) + f + 1);
    }
  }

  lemma RefusedAt(db: Db, x: RoomId, c: Call, moves: nat -> Move, f: nat)
    requires Forward(c.pc) && Apt(c) && Heard(moves, f) && !moves(f).reply.fate.Done?
    requires InFlight(Amid(db, x, c, moves, f).call.pc)
    ensures var e, d := Amid(db, x, c, moves, f).call, Amid(db, x, c, moves, f + 1).call;
      && (d.pc == Out(ExitAt(e.pc)) || (Unwinding(d.pc) && ExitAt(e.pc) == Unwound))
      && CallsLeft(d.pc) + f + 1 <= CallsLeft(c.pc)
  {
    hide StepCall, WellLed, AnsweredAt, ExitAt, CallsLeft;
    HeardAlong(db, x, c, moves, f);
    var e, d := Amid(db, x, c, moves, f).call, Amid(db, x, c, moves, f + 1).call;
    StepLeads(Found(db, x, c, moves, f), x, e, moves(f).reply);
    RefusalLeads(Found(db, x, c, moves, f), x, e, moves(f).reply, d);
  }

  lemma StartsOut(d: Call, n: nat)
    requires Unwinding(d.pc)
    ensures GoingOut(d, n, CallsLeft(d.pc) + n)
  {
  }

  lemma IsOut(d: Call, n: nat, total: nat)
    requires GoingOut(d, n, total) && !InFlight(d.pc)
    ensures d.pc == Out(Unwound)
  {
  }

  lemma RefusalLeads(before: Db, x: RoomId, e: Call, r: Reply, d: Call)
    requires WellLed(before, x, e, r, d) && !r.fate.Done?
    ensures CallsLeft(d.pc) < CallsLeft(e.pc)
    ensures d.pc == Out(ExitAt(e.pc)) || (Unwinding(d.pc) && ExitAt(e.pc) == Unwound)
  {
  }

  /** With no refusal it does not fail, but for a code that is taken and a record that does not
      open: it succeeds with its own room or the response on record, or finds its key in
      progress. */
  lemma UnrefusedAnswers(db: Db, x: RoomId, c: Call, moves: nat -> Move, n: nat)
    requires Forward(c.pc) && Apt(c) && Heard(moves, n) && !InFlight(Amid(db, x, c, moves, n).call.pc)
    ensures var d := Amid(db, x, c, moves, n).call;
      d.pc.Finished? && exists m :: 0 <= m < n && var e := Amid(db, x, c, moves, m).call;
        Forward(e.pc) && e.key == c.key && AnsweredAt(Found(db, x, c, moves, m), x, e, d.pc.result)
  {
    HeardAlong(db, x, c, moves, n);
    hide StepCall, AnsweredAt;
  }

  // Its call number f was the first one refused.
  predicate FirstRefused(db: Db, x: RoomId, c: Call, moves: nat -> Move, f: nat) {
    Heard(moves, f) && !moves(f).reply.fate.Done? && InFlight(Amid(db, x, c, moves, f).call.pc)
  }

  /** A Create fails in its tail, with its room perhaps active, if and only if the first call
      that was refused is the activation or, with a key, the saving of its response. */
  lemma TailIff(db: Db, x: RoomId, key: IdemKey, code: Code, moves: nat -> Move, n: nat)
    requires !InFlight(Amid(db, x, NewCall(key, code), moves, n).call.pc)
    ensures var c := NewCall(key, code);
      Amid(db, x, c, moves, n).call.pc == Out(Tail) <==>
        exists f: nat :: f < n && FirstRefused(db, x, c, moves, f) &&
          var pc := Amid(db, x, c, moves, f).call.pc; pc.Activate? || (key != NO_KEY && pc.SaveResponse?)
  {
    hide StepCall, Leads;
    var c := NewCall(key, code);
    if exists f: nat :: f < n && FirstRefused(db, x, c, moves, f) {
      var f: nat :| f < n && FirstRefused(db, x, c, moves, f);
      FirstRefusalDecides(db, x, c, moves, f, n);
      HeardAlong(db, x, c, moves, f);
      forall g: nat | g < n && FirstRefused(db, x, c, moves, g) ensures g == f {}
    } else {
      NeverRefused(db, x, c, moves, n);
    }
    hide AnsweredAt;
  }

  lemma NeverRefused(db: Db, x: RoomId, c: Call, moves: nat -> Move, n: nat)
    requires Forward(c.pc) && Apt(c) && !InFlight(Amid(db, x, c, moves, n).call.pc)
    requires forall f: nat :: f < n ==> !FirstRefused(db, x, c, moves, f)
    ensures Amid(db, x, c, moves, n).call.pc != Out(Tail) && Amid(db, x, c, moves, n).call.pc != Out(Unwound)
  {
    hide StepCall;
    if Heard(moves, n) {
      UnrefusedAnswers(db, x, c, moves, n);
    } else {
      var f := FirstRefusal(moves, n);
      assert !FirstRefused(db, x, c, moves, f);
      UnrefusedAnswers(db, x, c, moves, f);
      AmidStops(db, x, c, moves, f, n);
    }
  }

  /** Every Create returns, after fifteen calls at most. */
  lemma EndsWithin(db: Db, x: RoomId, key: IdemKey, code: Code, moves: nat -> Move)
    ensures !InFlight(Amid(db, x, NewCall(key, code), moves, 15).call.pc)
  {
    hide StepCall, AnsweredAt, Leads;
    var c := NewCall(key, code);
    if Heard(moves, 15) {
      HeardAlong(db, x, c, moves, 15);
    } else {
      var f := FirstRefusal(moves, 15);
      HeardAlong(db, x, c, moves, f);
      var e := Amid(db, x, c, moves, f).call;
      if InFlight(e.pc) {
        var d := Amid(db, x, c, moves, f + 1).call;
        RefusedAt(db, x, c, moves, f);
        if d.pc.Finished? {
          AmidStops(db, x, c, moves, f + 1, 15);
        } else {
          UnwindingAlong(db, x, c, moves, f + 1, 15, 15);
        }
      } else {
        AmidStops(db, x, c, moves, f, 15);
      }
    }
  }

  lemma {:induction false} FirstRefusal(moves: nat -> Move, n: nat) returns (f: nat)
    requires !Heard(moves, n)
    ensures f < n && Heard(moves, f) && !moves(f).reply.fate.Done?
  {
    if Heard(moves, n - 1) { f := n - 1; } else { f := FirstRefusal(moves, n - 1); }
  }

  // ---------------------------------------------------------------- in nobody's way

  /** Nobody else moves, everything is answered, and the setup key is `secret`. */
  function Alone(secret: Secret): nat -> Move { i => Move(d => d, Reply(Done, secret)) }

  lemma {:induction false} SoloIsAmid(db: Db, x: RoomId, c: Call, replies: seq<Reply>, secret: Secret)
    requires forall i :: 0 <= i < |replies| ==> replies[i] == Reply(Done, secret)
    ensures Solo(db, x, c, replies) == Amid(db, x, c, Alone(secret), |replies|)
  {
    hide StepCall;
    if replies != [] {
      var n := |replies| - 1;
      SoloIsAmid(db, x, c, replies[..n], secret);
      var m := Solo(db, x, c, replies[..n]);
      assert replies[..n] + [replies[n]] == replies;
      SoloThen(db, x, c, replies[..n], [replies[n]]);
      if InFlight(m.call.pc) { SoloOne(m.db, x, m.call, replies[n]); }
      assert Alone(secret)(n).others(m.db) == m.db;
    }
  }

  // The replies to its gate, and to its end.
  function GateReplies(key: IdemKey, r: Reply): seq<Reply> { if key == NO_KEY then [r] else [r, r, r] }

  function LastReplies(key: IdemKey, r: Reply): seq<Reply> { if key == NO_KEY then [r] else [r, r] }

  lemma Enters(db: Db, x: RoomId, key: IdemKey, code: Code, r: Reply)
    requires r.fate.Done? && !db.tables.Clashes(x, Digest(code)) && (key != NO_KEY ==> key !in db.tables.ops)
    ensures var m := Solo(db, x, NewCall(key, code), GateReplies(key, r));
      && m.db.remote == db.remote && m.call == NewCall(key, code).(pc := FindTheGroup, gated := key != NO_KEY)
      && m.db.tables.rooms == db.tables.rooms[x := Room(Digest(code), None, None, Blank, None, Creating)]
      && m.db.tables.ops == if key == NO_KEY then db.tables.ops else db.tables.ops[key := Operation(x, Blank, Creating)]
  {
    var c := NewCall(key, code);
    if key == NO_KEY {
      SoloOne(db, x, c, r);
    } else {
      var m1 := StepCall(db, x, c, r);
      var m2 := StepCall(m1.db, x, m1.call, r);
      SoloThree(db, x, c, r, r, r);
    }
  }

  lemma Leaves(db: Db, x: RoomId, c: Call, r: Reply)
    requires c.pc.Activate? && r.fate.Done? && x in db.tables.rooms && (c.key != NO_KEY ==> c.key in db.tables.ops)
    ensures var m := Solo(db, x, c, LastReplies(c.key, r));
      && m.db.tables.rooms == db.tables.rooms[x := db.tables.rooms[x].(status := Active)]
      && m.call.pc == Finished(Success(Own(x, c)))
      && m.db.tables.ops == (if c.key == NO_KEY then db.tables.ops else
                             var named := db.tables.ops[c.key].roomId;
                             db.tables.ops[c.key := Operation(named, Sealed(Own(x, c)), Active)])
  {
    if c.key == NO_KEY { SoloOne(db, x, c, r); } else { SoloTwo(db, x, c, r, r); }
  }

  function AllReplies(db: Db, x: RoomId, key: IdemKey, r: Reply): seq<Reply> {
    GateReplies(key, r) + (MakeReplies(db, x, r) + ([r, r, r] + LastReplies(key, r)))
  }

  lemma CreateSolo(db: Db, x: RoomId, key: IdemKey, code: Code, r: Reply)
    requires r.fate.Done? && !db.tables.Clashes(x, Digest(code)) && (key != NO_KEY ==> key !in db.tables.ops)
    ensures var m := Solo(db, x, NewCall(key, code), AllReplies(db, x, key, r));
      var response := Response(x, Some(code), MANAGEMENT_URL, r.secret);
      && m.call.pc == Finished(Success(response)) && ActiveIn(m.db, x)
      && m.db.tables.rooms.Keys == db.tables.rooms.Keys + {x}
      && (forall y :: y in db.tables.rooms ==> m.db.tables.rooms[y] == db.tables.rooms[y])
      && m.db.tables.ops == if key == NO_KEY then db.tables.ops
                            else db.tables.ops[key := Operation(x, Sealed(response), Active)]
  {
    var c := NewCall(key, code);
    hide Solo, StepCall, FindGroup, MakeReplies, GateReplies, LastReplies;
    Enters(db, x, key, code, r);
    var m1 := Solo(db, x, c, GateReplies(key, r));
    Makes(m1.db, x, m1.call, r);
    var make, last := MakeReplies(db, x, r), LastReplies(key, r);
    SameMakes(db, m1.db, x, r);
    SoloThen(db, x, c, GateReplies(key, r), make + ([r, r, r] + last));
    SoloThen(m1.db, x, m1.call, make, [r, r, r] + last);
    var m2 := Solo(m1.db, x, m1.call, make);
    Records(m2.db, x, m2.call, r);
    SoloThen(m2.db, x, m2.call, [r, r, r], last);
    var m3 := Solo(m2.db, x, m2.call, [r, r, r]);
    Leaves(m3.db, x, m3.call, r);
  }

  lemma SameMakes(a: Db, b: Db, x: RoomId, r: Reply)
    requires a.remote == b.remote
    ensures MakeReplies(a, x, r) == MakeReplies(b, x, r)
  {
  }

  /** With nobody in its way, with no key or one that has no record, and with a code that is
      free, a Create that is refused nothing succeeds with its own room, which is active, and
      its record holds the response. */
  lemma CreateAlone(db: Db, x: RoomId, key: IdemKey, code: Code, secret: Secret)
    requires !db.tables.Clashes(x, Digest(code)) && (key != NO_KEY ==> key !in db.tables.ops)
    ensures var m := Amid(db, x, NewCall(key, code), Alone(secret), 15);
      var response := Response(x, Some(code), MANAGEMENT_URL, secret);
      && m.call.pc == Finished(Success(response)) && ActiveIn(m.db, x)
      && m.db.tables.rooms.Keys == db.tables.rooms.Keys + {x}
      && (forall y :: y in db.tables.rooms ==> m.db.tables.rooms[y] == db.tables.rooms[y])
      && m.db.tables.ops == if key == NO_KEY then db.tables.ops
                            else db.tables.ops[key := Operation(x, Sealed(response), Active)]
  {
    var r, c := Reply(Done, secret), NewCall(key, code);
    CreateSolo(db, x, key, code, r);
    SoloIsAmid(db, x, c, AllReplies(db, x, key, r), secret);
    AmidStops(db, x, c, Alone(secret), |AllReplies(db, x, key, r)|, 15);
    hide Solo, Amid, FindGroup;
  }

  // ---------------------------------------------------------------- on its way out

  // The room has its row, and a key its record; the room is marked before the record.
  predicate CanFail(tables: Tables, x: RoomId, c: Call) {
    && x in tables.rooms && (c.key != NO_KEY ==> c.key in tables.ops)
    && (c.pc.FailOp? ==> tables.rooms[x].status.Error? && c.key != NO_KEY)
  }

  predicate SaysFailed(tables: Tables, x: RoomId, key: IdemKey) {
    && x in tables.rooms && tables.rooms[x].status.Error?
    && (key != NO_KEY ==> key in tables.ops && tables.ops[key].status.Error? && tables.ops[key].response == Blank)
  }

  lemma UndoStays(db: Db, x: RoomId, c: Call, r: Reply)
    requires c.pc.DropPolicy? || c.pc.RevokeKey? || c.pc.DropGroup?
    ensures var m := StepUndo(db, x, c, r); m.db.tables == db.tables && !m.call.pc.FailOp? && Unwinding(m.call.pc)
  {
    match c.pc { case DropPolicy => case RevokeKey => case _ => }
  }

  lemma FailMarks(db: Db, x: RoomId, c: Call, r: Reply)
    requires (c.pc.FailRoom? || c.pc.FailOp?) && CanFail(db.tables, x, c) && r.fate.Done?
    ensures var m := StepFail(db, x, c, r);
      if Unwinding(m.call.pc) then CanFail(m.db.tables, x, m.call) else SaysFailed(m.db.tables, x, c.key)
  {
    match c.pc { case FailRoom => case _ => }
  }

  /** The calls that a Create on its way out has before it. */
  function WayOut(c: Call): seq<Pc> {
    var at := c.pc;
    (if at.DropPolicy? then [DropPolicy] else [])
    + (if at.DropPolicy? || at.RevokeKey? then [RevokeKey] else [])
    + (if at.DropGroup? || ((at.DropPolicy? || at.RevokeKey?) && (c.made || c.sweep)) then [DropGroup] else [])
    + (if at.FailOp? then [] else [FailRoom])
    + (if at.FailOp? || c.key != NO_KEY then [FailOp] else [])
  }

  lemma WayOutStep(db: Db, x: RoomId, c: Call, r: Reply)
    requires Unwinding(c.pc)
    ensures var d := StepCall(db, x, c, r).call;
      && WayOut(c) != [] && WayOut(c)[0] == c.pc
      && (if Unwinding(d.pc) then WayOut(c)[1..] == WayOut(d) else d.pc == Out(Unwound) && |WayOut(c)| == 1)
  {
    hide StepCall;
    if c.pc.FailRoom? || c.pc.FailOp? {
      StepIsFail(db, x, c, r);
      WayOutFail(db, x, c, r);
    } else {
      StepIsUndo(db, x, c, r);
      WayOutUndo(db, x, c, r);
    }
    hide WayOut, StepUndo, StepFail;
  }

  lemma WayOutUndo(db: Db, x: RoomId, c: Call, r: Reply)
    requires c.pc.DropPolicy? || c.pc.RevokeKey? || c.pc.DropGroup?
    ensures var d := StepUndo(db, x, c, r).call; Unwinding(d.pc) && WayOut(c) == [c.pc] + WayOut(d)
  {
    match c.pc { case DropPolicy => case RevokeKey => case _ => }
  }

  lemma WayOutFail(db: Db, x: RoomId, c: Call, r: Reply)
    requires c.pc.FailRoom? || c.pc.FailOp?
    ensures var d := StepFail(db, x, c, r).call;
      if Unwinding(d.pc) then WayOut(c) == [c.pc] + WayOut(d) else d.pc == Out(Unwound) && WayOut(c) == [c.pc]
  {
    match c.pc { case FailRoom => case _ => }
  }

  /** Every step of the compensation is tried, in this order, whatever becomes of the others. */
  lemma {:induction false} AllTried(db: Db, x: RoomId, c: Call, replies: seq<Reply>)
    requires Unwinding(c.pc) && |replies| <= |WayOut(c)|
    ensures Solo(db, x, c, replies).call.pc ==
            if |replies| < |WayOut(c)| then WayOut(c)[|replies|] else Out(Unwound)
    decreases |replies|
  {
    hide StepCall, WayOut;
    if replies == [] {
      WayOutStep(db, x, c, Reply(Done, 0));
    } else {
      WayOutStep(db, x, c, replies[0]);
      var m := StepCall(db, x, c, replies[0]);
      if Unwinding(m.call.pc) { AllTried(m.db, x, m.call, replies[1..]); }
    }
  }

  /** A Create that gives up, with nobody in its way and refused nothing more: the room is in
      error and so is the record of its key. */
  lemma {:induction false} UnwindsAlone(db: Db, x: RoomId, c: Call, replies: seq<Reply>)
    requires Unwinding(c.pc) && CanFail(db.tables, x, c) && CallsLeft(c.pc) <= |replies|
    requires forall i :: 0 <= i < |replies| ==> replies[i].fate.Done?
    ensures var m := Solo(db, x, c, replies); m.call.pc == Out(Unwound) && SaysFailed(m.db.tables, x, c.key)
    decreases |replies|
  {
    hide StepCall, StepUndo, StepFail;
    var m := StepCall(db, x, c, replies[0]);
    UnwindingLeads(db, x, c, replies[0]);
    if c.pc.FailRoom? || c.pc.FailOp? {
      FailMarks(db, x, c, replies[0]);
      assert m == StepFail(db, x, c, replies[0]) by { StepIsFail(db, x, c, replies[0]); }
    } else {
      UndoStays(db, x, c, replies[0]);
      assert m == StepUndo(db, x, c, replies[0]) by { StepIsUndo(db, x, c, replies[0]); }
    }
    if Unwinding(m.call.pc) { UnwindsAlone(m.db, x, m.call, replies[1..]); }
  }

  lemma StepIsFail(db: Db, x: RoomId, c: Call, r: Reply)
    requires c.pc.FailRoom? || c.pc.FailOp?
    ensures StepCall(db, x, c, r) == StepFail(db, x, c, r)
  {
    hide StepFail;
  }

  lemma StepIsUndo(db: Db, x: RoomId, c: Call, r: Reply)
    requires c.pc.DropPolicy? || c.pc.RevokeKey? || c.pc.DropGroup?
    ensures StepCall(db, x, c, r) == StepUndo(db, x, c, r)
  {
    hide StepUndo;
  }
}
