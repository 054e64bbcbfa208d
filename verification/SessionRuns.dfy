/** Whole histories of the client: any commands with any failures, crashes in the middle of
    them, and whatever the user does to the daemon's profiles in between. */
module SessionRuns {
  import opened Outcomes
  import opened LocalDaemon
  import opened ManagedProfiles
  import opened SessionCommands
  import opened SessionService

  /** One thing that happened. A crash is a command whose remaining requests had no effect
      and whose outcome nobody saw. */
  datatype Event =
    | Enrolling(o: Outcome, enroll: EnrollReplies, crashed: bool)
    | Leaving(o: Outcome, leave: LeaveReplies, crashed: bool)
    | Switching(o: Outcome, how: SwitchTrail, crashed: bool)
    | Keeping(o: Outcome, connect: bool)                   // Connect and Disconnect
    | Refusing(o: Outcome)                                 // busy, or bad arguments
    | Outside                                              // other users of the daemon
  {
    predicate IsCommand() { !Outside? }

    // Nothing was left undone, as far as the user was told.
    predicate Clean() { IsCommand() ==> o.CleanupFailures() == 0 && !Crashed() }

    predicate Crashed() { (Enrolling? || Leaving? || Switching?) && crashed }
  }

  /** Others add, rename and remove their own profiles, select any, and may remove ours;
      they make none of our name. */
  ghost predicate OthersAct(s: Local, t: Local) {
    && t.SameFiles(s) && t.registry.Valid() && t.registry.next >= s.registry.next
    && (forall p :: p in t.registry.named && t.registry.named[p] == MANAGED ==>
          p in s.registry.named && s.registry.named[p] == MANAGED)
    && (forall p :: p in t.registry.named && p in s.registry.named && s.registry.named[p] == MANAGED ==>
          t.registry.named[p] == MANAGED)
    && (forall p :: p in t.registry.named && p !in s.registry.named ==> p >= s.registry.next)
  }

  ghost predicate Happens(s: Local, e: Event, t: Local) {
    match e
    case Enrolling(o, q, _) => EnrollEnds(s, t, o, q)
    case Leaving(o, q, _) => LeaveRun(s, q) == Ended(t, o)
    case Switching(o, how, _) => Switches(s, t, o, how)
    case Keeping(o, connect) => KeepsRoom(s, t, o, connect)
    case Refusing(o) => NothingHappens(s, t, o)
    case Outside => OthersAct(s, t)
  }

  ghost predicate IsHistory(w: seq<Local>, events: seq<Event>) {
    && |w| == |events| + 1
    && forall i :: 0 <= i < |events| ==> Happens(w[i], events[i], w[i + 1])
  }

  // ---------------------------------------------------------------- the invariant

  /** One profile of our name at most, and the saved profile is one of ours if it exists. */
  ghost predicate Inv(s: Local) {
    && s.registry.Valid() && s.registry.OneManaged()
    && (s.meta.Some? ==>
          var p := s.meta.value.profileId;
          DEFAULT < p < s.registry.next && (p in s.registry.named ==> s.registry.named[p] == MANAGED))
  }

  lemma EnrollsKeeps(s: Local, t: Local, o: Outcome, q: EnrollReplies)
    requires Inv(s) && Enrolls(s, t, o, q) && q.ensure.newId >= s.registry.next
    ensures Inv(t) && OthersKept(s.registry, t.registry)
  {
  }

  lemma EnrollRunKeeps(s: Local, q: EnrollReplies)
    requires Inv(s) && q.ensure.newId >= s.registry.next
    ensures var t := EnrollRun(s, q).local; Inv(t) && OthersKept(s.registry, t.registry)
  {
    EnrollRunEnrolls(s, q);
    EnrollsKeeps(s, EnrollRun(s, q).local, EnrollRun(s, q).outcome, q);
    hide EnrollRun, Enrolls;
  }

  lemma LeavesKeeps(s: Local, t: Local, o: Outcome)
    requires Inv(s) && Leaves(s, t, o)
    ensures Inv(t) && OthersKept(s.registry, t.registry) && t.registry.next == s.registry.next
  {
  }

  lemma OthersKeptSame(a: Registry)
    ensures OthersKept(a, a)
  {
  }

  lemma OthersKeptTwice(a: Registry, b: Registry, c: Registry)
    requires OthersKept(a, b) && OthersKept(b, c)
    ensures OthersKept(a, c)
  {
  }

  lemma LeaveRunKeeps(s: Local, q: LeaveReplies)
    requires Inv(s)
    ensures var t := LeaveRun(s, q).local; Inv(t) && OthersKept(s.registry, t.registry)
  {
    LeaveRunLeaves(s, q);
    LeavesKeeps(s, LeaveRun(s, q).local, LeaveRun(s, q).outcome);
    hide LeaveRun, Leaves;
  }

  lemma SwitchesKeeps(s: Local, t: Local, o: Outcome, how: SwitchTrail)
    requires Inv(s) && Switches(s, t, o, how)
    ensures Inv(t) && OthersKept(s.registry, t.registry)
  {
    hide EnrollRun, LeaveRun, OthersKept, Inv;
    OthersKeptSame(s.registry);
    match how
    case Declined =>
    case NotLeft(q) => LeaveRunKeeps(s, q);
    case Moved(left, mid, enroll) =>
      if left.Some? { LeaveRunKeeps(s, left.value); }
      if enroll.Some? { EnrollRunKeeps(mid, enroll.value); } else { OthersKeptSame(mid.registry); }
      OthersKeptTwice(s.registry, mid.registry, t.registry);
  }

  lemma StepKeeps(s: Local, e: Event, t: Local)
    requires Inv(s) && Happens(s, e, t)
    ensures Inv(t) && (e.IsCommand() ==> OthersKept(s.registry, t.registry))
  {
    match e
    case Enrolling(_, q, _) => EnrollRunKeeps(s, q); hide EnrollRun, Inv, OthersKept;
    case Leaving(_, q, _) => LeaveRunKeeps(s, q); hide LeaveRun, Inv, OthersKept;
    case Switching(o, how, _) => SwitchesKeeps(s, t, o, how); hide Switches, Inv, OthersKept;
    case _ =>
  }

  lemma EventAt(w: seq<Local>, events: seq<Event>, i: nat)
    requires IsHistory(w, events) && i + 1 < |w|
    ensures |w| == |events| + 1 && Happens(w[i], events[i], w[i + 1])
  {
  }

  lemma {:induction false} InvAlong(w: seq<Local>, events: seq<Event>, n: nat)
    requires IsHistory(w, events) && Inv(w[0]) && n < |w|
    ensures Inv(w[n])
  {
    hide Happens, Inv, IsHistory, OthersKept;
    if n > 0 {
      InvAlong(w, events, n - 1);
      EventAt(w, events, n - 1);
      StepKeeps(w[n - 1], events[n - 1], w[n]);
    }
  }

  /** On every history: never two profiles of our name, and no command ever changes, adds
      or removes a profile of anybody else, or its registration. */
  lemma OneManagedProfile(w: seq<Local>, events: seq<Event>, n: nat)
    requires IsHistory(w, events) && Inv(w[0]) && n < |w|
    ensures w[n].registry.OneManaged()
    ensures n < |events| && events[n].IsCommand() ==> OthersKept(w[n].registry, w[n + 1].registry)
  {
    InvAlong(w, events, n);
    if n < |events| {
      EventAt(w, events, n);
      StepKeeps(w[n], events[n], w[n + 1]);
    }
    hide Happens, IsHistory, OthersKept;
  }

  // ---------------------------------------------------------------- both files or neither

  lemma EnrollRunClean(s: Local, q: EnrollReplies)
    requires !s.Split() && EnrollRun(s, q).outcome.CleanupFailures() == 0
    ensures !EnrollRun(s, q).local.Split()
  {
    if StageOf(s, q).Had? {
      HadRun(s, q);
      AttemptRunKeeps(Having(s, q), q.ensure.newId, q.got, q.attempt);
      hide EnrollRun, AttemptRun;
    }
    hide EnrollWithRun;
  }

  lemma LeavesClean(s: Local, t: Local, o: Outcome)
    requires Leaves(s, t, o) && !s.Split() && o.CleanupFailures() == 0
    ensures !t.Split()
  {
  }

  lemma LeaveRunClean(s: Local, q: LeaveReplies)
    requires !s.Split() && LeaveRun(s, q).outcome.CleanupFailures() == 0
    ensures !LeaveRun(s, q).local.Split()
  {
    LeaveRunLeaves(s, q);
    LeavesClean(s, LeaveRun(s, q).local, LeaveRun(s, q).outcome);
    hide LeaveRun, Leaves;
  }

  lemma StepClean(s: Local, e: Event, t: Local)
    requires Happens(s, e, t) && !s.Split() && e.Clean()
    ensures !t.Split()
  {
    hide EnrollRun, LeaveRun;
    match e
    case Enrolling(_, q, _) => EnrollRunClean(s, q);
    case Leaving(_, q, _) => LeaveRunClean(s, q);
    case Switching(o, how, _) =>
      match how {
        case Declined =>
        case NotLeft(q) => LeaveRunClean(s, q);
        case Moved(left, mid, enroll) =>
          if left.Some? { LeaveRunClean(s, left.value); }
          if enroll.Some? { EnrollRunClean(mid, enroll.value); }
      }
    case _ =>
  }

  /** Metadata and room code are both saved or both absent, unless some earlier command
      admitted to cleanup failures or was cut off by a crash. */
  lemma {:induction false} BothOrNeither(w: seq<Local>, events: seq<Event>, n: nat)
    requires IsHistory(w, events) && !w[0].Split() && n < |w|
    ensures w[n].Split() ==> exists i :: 0 <= i < n && !events[i].Clean()
  {
    hide Happens, IsHistory;
    if n > 0 && w[n].Split() {
      EventAt(w, events, n - 1);
      if w[n - 1].Split() {
        BothOrNeither(w, events, n - 1);
      } else if events[n - 1].Clean() {
        StepClean(w[n - 1], events[n - 1], w[n]);
      }
    }
  }

  lemma StepSplit(s: Local, e: Event, t: Local)
    requires Happens(s, e, t) && s.Split()
    ensures t.SameFiles(s)
    ensures e.IsCommand() ==> e.o.Err? && t == s
  {
    match e { case Enrolling(_, _, _) => case Leaving(_, _, _) => case Switching(_, _, _) => case _ => }
  }

  lemma {:induction false} StaysSplit(w: seq<Local>, events: seq<Event>, n: nat, m: nat)
    requires IsHistory(w, events) && n <= m < |w| && w[n].Split()
    ensures w[m].SameFiles(w[n]) && w[m].Split()
  {
    hide Happens, IsHistory;
    if n < m {
      EventAt(w, events, m - 1);
      StaysSplit(w, events, n, m - 1);
      StepSplit(w[m - 1], events[m - 1], w[m]);
    }
  }

  /** A split pair of files stays split for ever, and nothing is asked of the daemon or of
      the Room API while it does: every command fails at once. */
  lemma SplitForever(w: seq<Local>, events: seq<Event>, n: nat, m: nat)
    requires IsHistory(w, events) && n <= m < |w| && w[n].Split()
    ensures w[m].SameFiles(w[n])
    ensures m < |events| && events[m].IsCommand() ==> events[m].o.Err? && w[m + 1] == w[m]
  {
    assert |w| == |events| + 1;
    hide Happens, IsHistory;
    StaysSplit(w, events, n, m);
    if m < |events| {
      EventAt(w, events, m);
      StepSplit(w[m], events[m], w[m + 1]);
    }
  }

  // ---------------------------------------------------------------- two ways to get stuck

  /** Both files are saved and the profile they name is gone. */
  predicate Stranded(s: Local) { s.Saved() && !s.CanLeave() }

  lemma StepStranded(s: Local, e: Event, t: Local)
    requires Inv(s) && Happens(s, e, t) && Stranded(s)
    ensures Stranded(t) && t.SameFiles(s) && (e.IsCommand() ==> e.o.Err?)
  {
    match e { case Enrolling(_, _, _) => case Leaving(_, _, _) => case Switching(_, _, _) => case _ => }
  }

  /** From there no command ever succeeds again: not Leave, not Switch, not Connect, and not
      Create or Join, which find the old room saved. */
  lemma {:induction false} StrandedForever(w: seq<Local>, events: seq<Event>, n: nat, m: nat)
    requires IsHistory(w, events) && Inv(w[0]) && n <= m < |w| && Stranded(w[n])
    ensures Stranded(w[m]) && w[m].SameFiles(w[n])
    ensures m < |events| && events[m].IsCommand() ==> events[m].o.Err?
    decreases m
  {
    assert |w| == |events| + 1;
    hide Happens, Inv, IsHistory;
    if n < m {
      EventAt(w, events, m - 1);
      StrandedForever(w, events, n, m - 1);
      InvAlong(w, events, m - 1);
      StepStranded(w[m - 1], events[m - 1], w[m]);
    }
    if m + 1 < |w| {
      EventAt(w, events, m);
      InvAlong(w, events, m);
      StepStranded(w[m], events[m], w[m + 1]);
    }
  }

  /** A saved room can be left, given the right answers, exactly when its profile exists. */
  lemma CanLeaveIff(s: Local)
    requires s.Saved() && s.meta.value.profileId != BLANK
    ensures s.CanLeave() <==> exists q :: LeaveRun(s, q).outcome == Ok
  {
    var good := Answer(Done, true);
    var q := LeaveReplies(true, true, DeregisterReplies(true, Done), RemoveReplies(true, true, good, good), Done, Done);
    if s.CanLeave() { assert LeaveRun(s, q).outcome == Ok; }
  }

  /** The removal of the saved profile was asked for and took effect. */
  predicate Removes(s: Local, q: LeaveReplies) {
    s.CanLeave() && q.metaRead && q.codeRead &&
    var a := DeregisterRun(s.registry, s.meta.value.profileId, q.deregister);
    a.ok && q.remove.Reaches(a.registry, s.meta.value.profileId) && q.remove.removed.fate.Applied()
  }

  /** How a Leave strands the room it leaves: RemoveProfile took effect, and either its answer
      was lost or named another profile, or it was heard and neither file could be cleared.
      Only the second case is reported as a cleanup failure. */
  lemma LeaveStrandsIff(s: Local, q: LeaveReplies)
    requires !Stranded(s)
    ensures var e := LeaveRun(s, q);
      && (Stranded(e.local) <==>
            Removes(s, q) && (!q.remove.removed.Good() || (q.clearMeta.Refused? && q.clearCode.Refused?)))
      && (Stranded(e.local) && e.outcome.CleanupFailures() == 0 <==> Removes(s, q) && !q.remove.removed.Good())
  {
    if s.Saved() { RemovedIff(s.registry, s.meta.value.profileId, q); }
    hide GiveUpRun, DeregisterRun;
  }

  lemma RemovedIff(r: Registry, p: ProfileId, q: LeaveReplies)
    ensures var a, d := GiveUpRun(r, p, q.deregister, q.remove), DeregisterRun(r, p, q.deregister);
      && (p in r.named ==>
            (p !in a.registry.named <==> d.ok && q.remove.Reaches(d.registry, p) && q.remove.removed.fate.Applied()))
      && (a.ok <==> d.ok && q.remove.Reaches(d.registry, p) && q.remove.removed.Good())
  {
  }

  /** The one Leave of a command, alone or as part of a Switch, if it had one. */
  function LeaveOf(e: Event): Option<LeaveReplies> {
    match e
    case Leaving(_, q, _) => Some(q)
    case Switching(_, NotLeft(q), _) => Some(q)
    case _ => None
  }

  /** How a Leave strands its room. */
  predicate LeaveStrands(s: Local, q: LeaveReplies) {
    Removes(s, q) && (!q.remove.removed.Good() || (q.clearMeta.Refused? && q.clearCode.Refused?))
  }

  /** The one enrollment of a command, alone or as part of a Switch, if it had one, and where
      it started. */
  function EnrollmentOf(s: Local, e: Event): Option<(Local, EnrollReplies)> {
    match e
    case Enrolling(_, q, _) => Some((s, q))
    case Switching(_, Moved(_, mid, Some(q)), _) => Some((mid, q))
    case _ => None
  }

  /** Every answer up to the two files was right. */
  predicate Connects(q: AttemptReplies) { q.login.listed && q.login.login.Done? && q.up.listed && q.up.up.Done? }

  /** The compensation's RemoveProfile was asked for and took effect. */
  predicate Undoes(s: Local, q: EnrollReplies) {
    var p := q.ensure.newId;
    q.undo.remove.removed.fate.Applied()
    && q.undo.remove.Reaches(AttemptRun(Having(s, q), p, q.got, q.attempt).local.registry, p)
  }

  /** How an enrollment strands a room it did not report as saved: the metadata was saved but
      the answer was lost, the profile was removed, and neither file could be cleared. */
  predicate EnrollStrands(s: Local, q: EnrollReplies) {
    && StageOf(s, q).Had? && Connects(q.attempt) && q.attempt.codeSaved.Done? && q.attempt.metaSaved.Lost?
    && Undoes(s, q) && q.undo.clearMeta.Refused? && q.undo.clearCode.Refused?
  }

  /** What an attempt leads to, answer by answer. */
  lemma AttemptRunIs(s: Local, p: ProfileId, got: Enrollment, q: AttemptReplies)
    requires p in s.registry.named && p != BLANK && s.Empty()
    ensures var a := AttemptRun(s, p, got, q);
      && a.loginTried && a.local.registry.named == s.registry.named
      && (a.codeTried <==> Connects(q)) && (a.metaTried <==> Connects(q) && q.codeSaved.Done?)
      && (a.ok <==> Connects(q) && q.codeSaved.Done? && q.metaSaved.Done?)
      && (a.local.code.Some? <==> Connects(q) && q.codeSaved.Applied())
      && (a.local.meta.Some? <==> Connects(q) && q.codeSaved.Done? && q.metaSaved.Applied())
      && (a.local.meta.Some? ==> a.local.meta.value.profileId == p)
  {
  }

  lemma UndoRunIs(a: Attempted, p: ProfileId, q: UndoReplies)
    requires p in a.local.registry.named && a.loginTried
    ensures var t := UndoRun(a, p, q).local;
      && t.registry.named == (if q.remove.removed.fate.Applied() && q.remove.Reaches(a.local.registry, p)
                              then a.local.registry.named - {p} else a.local.registry.named)
      && t.meta == (if a.metaTried && q.clearMeta.Applied() then None else a.local.meta)
      && t.code == (if a.codeTried && q.clearCode.Applied() then None else a.local.code)
  {
  }

  /** Of an enrollment that had a profile: when it succeeds, whether its profile is there in
      the end, and which files. */
  lemma EnrollRunIs(s: Local, q: EnrollReplies)
    requires s.registry.Valid() && q.ensure.newId >= s.registry.next && StageOf(s, q).Had?
    ensures var e, p := EnrollRun(s, q), q.ensure.newId;
      && (e.outcome.Ok? <==> Connects(q.attempt) && q.attempt.codeSaved.Done? && q.attempt.metaSaved.Done?)
      && e.local.registry.named == (if e.outcome.Err? && Undoes(s, q) then s.registry.named
                                    else s.registry.named[p := MANAGED])
      && (e.local.code.Some? <==>
            Connects(q.attempt) && q.attempt.codeSaved.Applied() && (e.outcome.Ok? || q.undo.clearCode.Refused?))
      && (e.local.meta.Some? <==> Connects(q.attempt) && q.attempt.codeSaved.Done? && q.attempt.metaSaved.Applied()
                                  && (e.outcome.Ok? || q.undo.clearMeta.Refused?))
      && (e.local.meta.Some? ==> e.local.meta.value.profileId == p)
  {
    HadRun(s, q);
    var p, t := q.ensure.newId, Having(s, q);
    var a := AttemptRun(t, p, q.got, q.attempt);
    assert s.registry.named[p := MANAGED] - {p} == s.registry.named;
    AttemptRunIs(t, p, q.got, q.attempt);
    if !a.ok { UndoRunIs(a, p, q.undo); }
    hide AttemptRun, UndoRun, EnrollRun, StageOf, Connects;
  }

  // ---------------------------------------------------------------- what the count counts

  datatype CleanupStep = Deregistering | Removing | ClearingMetadata | ClearingCode

  const CLEANUP := {Deregistering, Removing, ClearingMetadata, ClearingCode}

  /** The attempt got far enough for this step to be part of its compensation. */
  predicate Tried(q: AttemptReplies, step: CleanupStep) {
    match step
    case Deregistering | Removing => true
    case ClearingMetadata => Connects(q) && q.codeSaved.Done?
    case ClearingCode => Connects(q)
  }

  /** Login or Up selected the new profile. */
  predicate Selected(q: AttemptReplies) {
    q.login.listed && (q.login.selects || (q.login.login.Done? && q.up.listed && q.up.selects))
  }

  /** The adapter or the store reports an error of this step. */
  predicate Fails(q: EnrollReplies, step: CleanupStep) {
    match step
    case Deregistering => !q.undo.deregister.listed || !q.undo.deregister.loggedOut.Done?
    case Removing =>
      || !q.undo.remove.listed || !q.undo.remove.activeRead || !q.undo.remove.removed.Good()
      || (Selected(q.attempt) && !q.undo.remove.switched.Good())
    case ClearingMetadata => !q.undo.clearMeta.Done?
    case ClearingCode => !q.undo.clearCode.Done?
  }

  /** An enrollment that fails once it had a profile says how many steps of its compensation
      were tried and failed. */
  lemma FailuresCounted(s: Local, q: EnrollReplies)
    requires s.registry.Valid() && q.ensure.newId >= s.registry.next
    requires StageOf(s, q).Had? && EnrollRun(s, q).outcome.Err?
    ensures EnrollRun(s, q).outcome.error ==
            TransactionFailed(|set step | step in CLEANUP && Tried(q.attempt, step) && Fails(q, step)|)
  {
    HadRun(s, q);
    var p, t := q.ensure.newId, Having(s, q);
    var a := AttemptRun(t, p, q.got, q.attempt);
    AttemptRunIs(t, p, q.got, q.attempt);
    AttemptSelects(t, p, q.got, q.attempt);
    UndoCounts(a, p, q);
    CountOf(q);
    hide AttemptRun, UndoRun, EnrollRun, StageOf, Connects, Selected;
  }

  lemma AttemptSelects(s: Local, p: ProfileId, got: Enrollment, q: AttemptReplies)
    requires p in s.registry.named && p != BLANK && s.registry.active != p
    ensures AttemptRun(s, p, got, q).local.registry.active == p <==> Selected(q)
  {
  }

  lemma UndoCounts(a: Attempted, p: ProfileId, q: EnrollReplies)
    requires p in a.local.registry.named && p != BLANK && a.loginTried
    requires a.local.registry.active == p <==> Selected(q.attempt)
    ensures UndoRun(a, p, q.undo).outcome ==
            Err(TransactionFailed(Bit(Fails(q, Deregistering)) + Bit(Fails(q, Removing))
                                  + Bit(a.metaTried && Fails(q, ClearingMetadata))
                                  + Bit(a.codeTried && Fails(q, ClearingCode))))
  {
    hide Selected;
  }

  lemma CountOf(q: EnrollReplies)
    ensures var counted := set step | step in CLEANUP && Tried(q.attempt, step) && Fails(q, step);
      |counted| == Bit(Fails(q, Deregistering)) + Bit(Fails(q, Removing))
                   + Bit(Tried(q.attempt, ClearingMetadata) && Fails(q, ClearingMetadata))
                   + Bit(Tried(q.attempt, ClearingCode) && Fails(q, ClearingCode))
  {
    hide Fails, Connects;
    OneByOne(set step | step in CLEANUP && Tried(q.attempt, step) && Fails(q, step));
  }

  lemma OneByOne(t: set<CleanupStep>)
    requires t <= CLEANUP
    ensures |t| == Bit(Deregistering in t) + Bit(Removing in t) + Bit(ClearingMetadata in t) + Bit(ClearingCode in t)
  {
    var a := Minus(t, Deregistering);
    var b := Minus(a, Removing);
    var c := Minus(b, ClearingMetadata);
    var d := Minus(c, ClearingCode);
    assert d == {};
  }

  lemma Minus(t: set<CleanupStep>, step: CleanupStep) returns (u: set<CleanupStep>)
    ensures u == t - {step} && |t| == |u| + Bit(step in t)
  {
    u := t - {step};
    if step in t { assert t == u + {step}; } else { assert t == u; }
  }

  /** What an enrollment answers: an unreadable or split pair, a room already saved, no key from
      the Room API, no profile of our own, success if every request of the attempt is answered,
      and otherwise how many steps of the compensation failed. */
  lemma EnrollAnswers(s: Local, q: EnrollReplies)
    requires s.registry.Valid() && q.ensure.newId >= s.registry.next
    ensures EnrollRun(s, q).outcome ==
            if !q.metaRead || !q.codeRead || s.Split() then Err(StoredStateConflict)
            else if s.Saved() then Err(RoomAlreadySaved)
            else if !q.obtained then Err(OperationFailed)
            else if !q.ensure.listed || s.registry.HasManaged() || !q.ensure.added.Done? || q.ensure.blank
            then Err(TransactionFailed(0))
            else if Connects(q.attempt) && q.attempt.codeSaved.Done? && q.attempt.metaSaved.Done? then Ok
            else Err(TransactionFailed(|set step | step in CLEANUP && Tried(q.attempt, step) && Fails(q, step)|))
  {
    if StageOf(s, q).Had? {
      EnrollRunIs(s, q);
      if EnrollRun(s, q).outcome.Err? { FailuresCounted(s, q); EnrollRunEnrolls(s, q); }
    } else {
      WithoutProfile(s, q);
    }
    hide EnrollRun, Connects, Fails, Tried;
  }

  lemma WithoutProfile(s: Local, q: EnrollReplies)
    requires !StageOf(s, q).Had?
    ensures EnrollRun(s, q).outcome ==
            if !q.metaRead || !q.codeRead || s.Split() then Err(StoredStateConflict)
            else if s.Saved() then Err(RoomAlreadySaved)
            else if !q.obtained then Err(OperationFailed)
            else Err(TransactionFailed(0))
  {
  }

  /** The device of a failed enrollment stays registered if and only if Login took effect and
      the Logout of the compensation did not. */
  lemma StaysRegisteredIff(s: Local, q: EnrollReplies)
    requires s.registry.Valid() && q.ensure.newId >= s.registry.next
    requires StageOf(s, q).Had? && EnrollRun(s, q).outcome.Err?
    ensures q.ensure.newId in EnrollRun(s, q).local.registry.enrolled <==>
              && q.attempt.login.listed && q.attempt.login.login.Applied()
              && !(q.undo.deregister.listed && q.undo.deregister.loggedOut.Applied())
  {
    HadRun(s, q);
    var p, t := q.ensure.newId, Having(s, q);
    AttemptRegisters(t, p, q.got, q.attempt);
    UndoDeregisters(AttemptRun(t, p, q.got, q.attempt), p, q.undo);
    hide AttemptRun, UndoRun, EnrollRun, StageOf;
  }

  lemma AttemptRegisters(s: Local, p: ProfileId, got: Enrollment, q: AttemptReplies)
    requires p in s.registry.named && p != BLANK && p !in s.registry.enrolled
    ensures var a := AttemptRun(s, p, got, q);
      && a.loginTried && p in a.local.registry.named
      && (p in a.local.registry.enrolled <==> q.login.listed && q.login.login.Applied())
  {
  }

  lemma UndoDeregisters(a: Attempted, p: ProfileId, q: UndoReplies)
    requires p in a.local.registry.named && p != BLANK && a.loginTried
    ensures p in UndoRun(a, p, q).local.registry.enrolled <==>
              p in a.local.registry.enrolled && !(q.deregister.listed && q.deregister.loggedOut.Applied())
  {
  }

  // ---------------------------------------------------------------- how a Leave ends

  /** The device is deregistered and its profile removed, and both are heard. */
  predicate GaveUp(s: Local, q: LeaveReplies)
    requires s.Saved()
  {
    var p := s.meta.value.profileId;
    && p != BLANK && p in s.registry.named && q.deregister.listed && q.deregister.loggedOut.Done?
    && q.remove.listed && q.remove.activeRead && q.remove.removed.Good()
    && (s.registry.active == p ==> q.remove.switched.Good())
  }

  /** What a Leave answers: no room saved, an unreadable or split pair, a request that failed,
      or how many of the two files could not be cleared; otherwise success. */
  lemma LeaveAnswers(s: Local, q: LeaveReplies)
    ensures LeaveRun(s, q).outcome ==
            if !q.metaRead || !q.codeRead || s.Split() then Err(StoredStateConflict)
            else if s.Empty() then Err(NoRoomSaved)
            else if !GaveUp(s, q) then Err(OperationFailed)
            else match (q.clearMeta.Done?, q.clearCode.Done?)
                 case (true, true) => Ok
                 case (false, false) => Err(TransactionFailed(2))
                 case _ => Err(TransactionFailed(1))
  {
    if s.Saved() { GivesUpIff(s.registry, s.meta.value.profileId, q); }
    hide GiveUpRun;
  }

  lemma GivesUpIff(r: Registry, p: ProfileId, q: LeaveReplies)
    ensures GiveUpRun(r, p, q.deregister, q.remove).ok <==>
              && p != BLANK && p in r.named && q.deregister.listed && q.deregister.loggedOut.Done?
              && q.remove.listed && q.remove.activeRead && q.remove.removed.Good()
              && (r.active == p ==> q.remove.switched.Good())
  {
  }

  // ---------------------------------------------------------------- stranded by an enrollment

  lemma EnrollStrandsIff(s: Local, q: EnrollReplies)
    requires s.registry.Valid() && q.ensure.newId >= s.registry.next && !Stranded(s)
    ensures Stranded(EnrollRun(s, q).local) <==> EnrollStrands(s, q)
    ensures EnrollStrands(s, q) ==> EnrollRun(s, q).outcome.CleanupFailures() >= 2
  {
    if StageOf(s, q).Had? {
      EnrollRunIs(s, q);
      hide EnrollRun;
    } else {
      NotHad(s, q);
    }
  }

  // An enrollment without a profile leaves the files alone.
  lemma NotHad(s: Local, q: EnrollReplies)
    requires !StageOf(s, q).Had?
    ensures var e := EnrollRun(s, q);
      && e.outcome.CleanupFailures() == 0 && e.local.SameFiles(s)
      && e.local.registry == if StageOf(s, q).NotMade? then EnsureRun(s.registry, q.ensure).registry else s.registry
    ensures StageOf(s, q).NotMade? ==> s.Empty()
  {
  }

  /** A command, crashed or not, strands a room if and only if its Leave does or its
      enrollment does. But for an unconfirmed removal both files went uncleared, which counts
      as two cleanup failures; after a crash nobody is told. */
  lemma StrandsIff(s: Local, e: Event, t: Local)
    requires Inv(s) && Happens(s, e, t) && e.IsCommand() && !Stranded(s)
    ensures Stranded(t) <==>
              || (LeaveOf(e).Some? && LeaveStrands(s, LeaveOf(e).value))
              || (EnrollmentOf(s, e).Some? && EnrollStrands(EnrollmentOf(s, e).value.0, EnrollmentOf(s, e).value.1))
    ensures e.o.CleanupFailures() == 0 ==>
              (Stranded(t) <==>
                 LeaveOf(e).Some? && Removes(s, LeaveOf(e).value) && !LeaveOf(e).value.remove.removed.Good())
  {
    hide LeaveRun, EnrollRun, Removes, EnrollStrands;
    match e
    case Leaving(_, q, _) => LeaveStrandsIff(s, q);
    case Switching(o, how, _) =>
      match how {
        case Declined =>
        case NotLeft(q) => LeaveStrandsIff(s, q);
        case Moved(left, mid, enroll) =>
          if left.Some? { LeftState(s, left.value); LeaveRunKeeps(s, left.value); }
          if enroll.Some? { EnrollStrandsIff(mid, enroll.value); }
      }
    case Enrolling(_, q, _) => EnrollStrandsIff(s, q);
    case _ =>
  }

  /** From any saved room whose profile exists: a Leave whose removal is confirmed and which
      crashes before the files are cleared strands the room, and nobody was told anything. */
  lemma CrashStrands(s: Local) returns (q: LeaveReplies, t: Local, o: Outcome)
    requires s.CanLeave() && s.meta.value.profileId != BLANK
    ensures Happens(s, Leaving(o, q, true), t) && q.remove.removed.Good() && Stranded(t)
  {
    var good := Answer(Done, true);
    var removed := RemoveReplies(true, true, good, good);
    q := LeaveReplies(true, true, DeregisterReplies(true, Done), removed, Refused, Refused);
    t, o := LeaveRun(s, q).local, LeaveRun(s, q).outcome;
    LeaveStrandsIff(s, q);
    hide LeaveRun;
  }

  /** From any saved room whose profile exists: the answer of RemoveProfile is lost, nothing
      else fails, nothing is reported as undone, and the room is stranded. */
  lemma LostRemovalStrands(s: Local) returns (q: LeaveReplies)
    requires s.CanLeave() && s.meta.value.profileId != BLANK
    ensures LeaveRun(s, q).outcome == Err(OperationFailed) && Stranded(LeaveRun(s, q).local)
  {
    var good := Answer(Done, true);
    var lost := RemoveReplies(true, true, good, Answer(Lost, true));
    q := LeaveReplies(true, true, DeregisterReplies(true, Done), lost, Done, Done);
    LeaveStrandsIff(s, q);
  }

  /** Nothing saved, and a profile of our name all the same. */
  predicate Blocked(s: Local) { s.Empty() && s.registry.HasManaged() }

  /** AddProfile took effect and Ensure says it did not: the answer was lost, or blank. */
  predicate Strays(r: Registry, q: EnsureReplies) {
    q.listed && !r.HasManaged() && q.added.Applied() && (!q.added.Done? || q.blank)
  }

  /** How an enrollment blocks all later ones: AddProfile took effect, and either it was not
      believed, or the attempt failed, its compensation did not remove the profile, and no
      file is left. */
  predicate EnrollBlocks(s: Local, q: EnrollReplies) {
    if StageOf(s, q).NotMade? then Strays(s.registry, q.ensure) else
    && StageOf(s, q).Had? && !Undoes(s, q)
    && !(Connects(q.attempt) && q.attempt.codeSaved.Done? && q.attempt.metaSaved.Done?)
    && !(Connects(q.attempt) && q.attempt.codeSaved.Applied() && q.undo.clearCode.Refused?)
    && !(Connects(q.attempt) && q.attempt.codeSaved.Done? && q.attempt.metaSaved.Lost? && q.undo.clearMeta.Refused?)
  }

  lemma EnsureStraysIff(r: Registry, q: EnsureReplies)
    requires !EnsureRun(r, q).result.Ensured?
    ensures EnsureRun(r, q).registry.HasManaged() <==> r.HasManaged() || Strays(r, q)
  {
    if Strays(r, q) { assert q.newId in r.Add(q.newId).named; }
  }

  /** A command, crashed or not, blocks all later enrollments if and only if its enrollment
      does; if nothing was left undone, that is AddProfile taking effect unbelieved. */
  lemma BlocksIff(s: Local, e: Event, t: Local)
    requires Inv(s) && Happens(s, e, t) && e.IsCommand() && !Blocked(s)
    ensures Blocked(t) <==>
              EnrollmentOf(s, e).Some? && EnrollBlocks(EnrollmentOf(s, e).value.0, EnrollmentOf(s, e).value.1)
    ensures Blocked(t) && e.o.CleanupFailures() == 0 ==>
              var (mid, q) := EnrollmentOf(s, e).value; StageOf(mid, q).NotMade? && Strays(mid.registry, q.ensure)
  {
    hide LeaveRun, EnrollRun, EnrollBlocks, StageOf, Strays;
    match e
    case Enrolling(_, q, _) => EnrollBlocksIff(s, q);
    case Leaving(_, q, _) => LeaveNeverBlocks(s, q);
    case Switching(_, how, _) =>
      match how {
        case Declined =>
        case NotLeft(q) => LeaveNeverBlocks(s, q);
        case Moved(left, mid, enroll) =>
          if left.Some? { LeaveNeverBlocks(s, left.value); LeaveRunKeeps(s, left.value); }
          if enroll.Some? { EnrollBlocksIff(mid, enroll.value); }
      }
    case _ =>
  }

  lemma EnrollBlocksIff(s: Local, q: EnrollReplies)
    requires s.registry.Valid() && q.ensure.newId >= s.registry.next && !Blocked(s)
    ensures var e := EnrollRun(s, q);
      && (Blocked(e.local) <==> EnrollBlocks(s, q))
      && (Blocked(e.local) && e.outcome.CleanupFailures() == 0 ==>
            StageOf(s, q).NotMade? && Strays(s.registry, q.ensure))
  {
    if StageOf(s, q).Had? {
      HadBlocks(s, q);
      EnrollRunEnrolls(s, q);
      hide EnrollRun, EnrollBlocks;
    } else {
      NotHad(s, q);
      if StageOf(s, q).NotMade? { EnsureStraysIff(s.registry, q.ensure); }
      hide EnrollRun, EnsureRun, Strays;
    }
  }

  lemma HadBlocks(s: Local, q: EnrollReplies)
    requires s.registry.Valid() && q.ensure.newId >= s.registry.next && StageOf(s, q).Had?
    ensures Blocked(EnrollRun(s, q).local) <==> EnrollBlocks(s, q)
  {
    EnrollRunIs(s, q);
    HadRun(s, q);
    var e := EnrollRun(s, q);
    if !(e.outcome.Err? && Undoes(s, q)) { assert e.local.registry.named[q.ensure.newId] == MANAGED; }
    hide EnrollRun, Undoes, Connects;
  }

  /** With nothing saved and no profile of our name: AddProfile takes effect and its answer is
      lost, or names nothing, and every later enrollment is blocked. */
  lemma LostProfileBlocks(s: Local, got: Enrollment, blank: bool) returns (q: EnrollReplies)
    requires s.Empty() && !s.registry.HasManaged()
    ensures q.ensure.newId >= s.registry.next && Strays(s.registry, q.ensure)
    ensures EnrollRun(s, q).outcome == Err(TransactionFailed(0)) && Blocked(EnrollRun(s, q).local)
  {
    var ensure := EnsureReplies(true, if blank then Done else Lost, blank, s.registry.next);
    q := EnrollReplies(true, true, true, got, ensure, NO_ATTEMPT, NO_UNDO);
    EnsureStraysIff(s.registry, q.ensure);
    NotHad(s, q);
  }

  /** From the same states: an enrollment whose AddProfile is confirmed and which crashes there
      and then blocks every later one, and nobody was told anything. */
  lemma CrashBlocks(s: Local, got: Enrollment) returns (q: EnrollReplies, t: Local, o: Outcome)
    requires s.Empty() && !s.registry.HasManaged() && s.registry.Valid()
    ensures Happens(s, Enrolling(o, q, true), t) && StageOf(s, q).Had? && Blocked(t)
  {
    q := EnrollReplies(true, true, true, got, EnsureReplies(true, Done, false, s.registry.next), NO_ATTEMPT, NO_UNDO);
    t, o := EnrollRun(s, q).local, EnrollRun(s, q).outcome;
    EnrollBlocksIff(s, q);
    hide EnrollRun;
  }

  // The one profile of our name is the saved one, so leaving it leaves none.
  lemma LeaveNeverBlocks(s: Local, q: LeaveReplies)
    requires Inv(s) && !Blocked(s)
    ensures !Blocked(LeaveRun(s, q).local)
  {
    LeaveRunLeaves(s, q);
    hide LeaveRun, GiveUpRun;
  }

  lemma StepBlocked(s: Local, e: Event, t: Local)
    requires Happens(s, e, t) && Blocked(s) && e.IsCommand()
    ensures e.o.Err? && Blocked(t) && t.registry == s.registry
  {
    match e { case Enrolling(_, _, _) => case Leaving(_, _, _) => case Switching(_, _, _) => case _ => }
  }

  /** No command succeeds until somebody else removes that profile. */
  lemma {:induction false} BlockedUntilRemoved(w: seq<Local>, events: seq<Event>, n: nat, m: nat)
    requires IsHistory(w, events) && n <= m < |w| && Blocked(w[n])
    requires forall i :: n <= i < m ==> events[i].IsCommand()
    ensures Blocked(w[m]) && w[m].registry == w[n].registry
    ensures forall i :: n <= i < m ==> events[i].IsCommand() && events[i].o.Err?
    decreases m
  {
    hide Happens, IsHistory;
    if n < m {
      EventAt(w, events, m - 1);
      BlockedUntilRemoved(w, events, n, m - 1);
      StepBlocked(w[m - 1], events[m - 1], w[m]);
    }
  }

  // ---------------------------------------------------------------- all or nothing

  /** An enrollment that succeeds has saved both files and its profile exists. One that
      fails after it had a profile was compensated, and said how many steps of that failed;
      if none did, the files are empty, the profiles and registrations are as before, the
      selected profile is the old one or `default`, and a retry is refused by neither check,
      whatever other users did in between. */
  lemma AllOrNothing(s: Local, q: EnrollReplies, u: Local, q2: EnrollReplies)
    requires Inv(s) && q.ensure.newId >= s.registry.next
    ensures var e, p := EnrollRun(s, q), q.ensure.newId;
      && (e.outcome.Ok? ==>
            && e.local.Saved() && e.local.code == Some(q.got.code)
            && e.local.meta == Some(RoomMetadata(q.got.roomId, q.got.managementURL, p))
            && e.local.registry.named == s.registry.named[p := MANAGED]
            && p in e.local.registry.enrolled && e.local.registry.up == Some(p))
      && (e.outcome.Ok? <==>
            && StageOf(s, q).Had? && Connects(q.attempt) && q.attempt.codeSaved.Done? && q.attempt.metaSaved.Done?)
      && (StageOf(s, q).Had? && e.outcome.Err? && e.outcome.CleanupFailures() == 0 ==>
            && e.local.Empty() && e.local.registry.named == s.registry.named
            && e.local.registry.enrolled == s.registry.enrolled
            && e.local.registry.active in {s.registry.active, DEFAULT}
            && (OthersAct(e.local, u) ==>
                  && EnrollRun(u, q2).outcome != Err(RoomAlreadySaved)
                  && (EnrollRun(u, q2).outcome == Err(StoredStateConflict) ==> !q2.metaRead || !q2.codeRead)
                  && !EnsureRun(u.registry, q2.ensure).result.Conflict?))
  {
    EnrollRunEnrolls(s, q);
    if StageOf(s, q).Had? { EnrollRunIs(s, q); }
    if u.Empty() { RetryPasses(u, q2); }
    hide EnrollRun, Connects;
  }

  lemma RetryPasses(u: Local, q: EnrollReplies)
    requires u.Empty()
    ensures var o := EnrollRun(u, q).outcome;
      o != Err(RoomAlreadySaved) && (o == Err(StoredStateConflict) ==> !q.metaRead || !q.codeRead)
  {
    if StageOf(u, q).Had? { HadRun(u, q); } else { NotHad(u, q); }
    hide AttemptRun, DeregisterIf, RemoveRun;
  }

  // ---------------------------------------------------------------- the code makes such histories

  /** Any commands, called on the service in any order with any arguments, make a history:
      all that is proved above is true of them. */
  method AnyCommands(service: Service, n: nat) returns (ghost w: seq<Local>, ghost events: seq<Event>)
    requires service.Valid()
    modifies service`busy, service.netbird.client, service.metadata, service.codes, service.rooms, service.machine
    ensures service.Valid() && IsHistory(w, events) && |events| == n
    ensures w[0] == old(service.State()) && w[n] == service.State()
  {
    w, events := [service.State()], [];
    for i := 0 to n
      invariant service.Valid() && IsHistory(w, events) && |events| == i
      invariant w[0] == old(service.State()) && w[i] == service.State()
    {
      ghost var e := AnyCommand(service);
      Longer(w, events, e, service.State());
      w, events := w + [service.State()], events + [e];
    }
  }

  method AnyCommand(service: Service) returns (ghost e: Event)
    requires service.Valid()
    modifies service`busy, service.netbird.client, service.metadata, service.codes, service.rooms, service.machine
    ensures service.Valid() && Happens(old(service.State()), e, service.State()) && e.IsCommand()
  {
    var which: nat, flag: bool, drawn: bool, hostname: string, mode: string := *, *, *, *, *;
    ghost var refused := service.busy;
    var o;
    if which == 0 {
      ghost var q;
      o, q := service.Enroll(hostname, drawn);
      e := if !drawn || BadHostname(hostname) || refused then Refusing(o) else Enrolling(o, q, false);
    } else if which == 1 {
      ghost var q;
      o, q := service.Leave();
      e := if refused then Refusing(o) else Leaving(o, q, false);
    } else if which == 2 {
      ghost var how;
      o, how := service.Switch(flag, mode, hostname, drawn);
      e := Switching(o, how, false);
    } else if which == 3 {
      o := service.Disconnect();
      e := if refused then Refusing(o) else Keeping(o, false);
    } else {
      var waits := AnyWaits(|service.monitor.retryDelays|);
      o := service.Reconnect(waits);
      e := if refused then Refusing(o) else Keeping(o, true);
    }
  }

  // Each wait comes to its end, or the context ends it.
  method AnyWaits(n: nat) returns (waits: seq<bool>)
    ensures |waits| == n
  {
    waits := [];
    while |waits| < n
      invariant |waits| <= n
    {
      var ended: bool := *;
      waits := waits + [ended];
    }
  }

  lemma Longer(w: seq<Local>, events: seq<Event>, e: Event, t: Local)
    requires IsHistory(w, events) && Happens(w[|events|], e, t)
    ensures IsHistory(w + [t], events + [e])
  {
    hide Happens;
    var v, more := w + [t], events + [e];
    forall i | 0 <= i < |more| ensures Happens(v[i], more[i], v[i + 1]) {
      if i < |events| { assert v[i] == w[i] && v[i + 1] == w[i + 1] && more[i] == events[i]; }
    }
  }
}
