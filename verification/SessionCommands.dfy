/** What each command of the client's session does to the daemon's profiles and to the two
    saved files, given the answers it gets, and what it keeps whatever they are.
    SessionService proves these of the code; SessionRuns draws the conclusions for whole
    histories. */
module SessionCommands {
  import opened Outcomes
  import opened LocalDaemon
  import opened ManagedProfiles

  type Code = nat     // a room code

  datatype Enrollment = Enrollment(roomId: nat, code: Code, managementURL: nat)

  datatype RoomMetadata = RoomMetadata(roomId: nat, managementURL: nat, profileId: ProfileId)

  /** `calls` counts the requests made to the daemon and to the Room API. */
  datatype Local = Local(registry: Registry, meta: Option<RoomMetadata>, code: Option<Code>, calls: nat) {
    predicate Saved() { meta.Some? && code.Some? }

    predicate Empty() { meta.None? && code.None? }

    predicate Split() { !Saved() && !Empty() }

    // A room is saved and its profile exists.
    predicate CanLeave() { Saved() && meta.value.profileId in registry.named }

    // No profile of our name is there, or will be once the saved room is left.
    predicate CanSwitch() {
      (Empty() && !registry.HasManaged()) || (CanLeave() && !registry.Without(meta.value.profileId).HasManaged())
    }

    predicate SameFiles(t: Local) { t.meta == meta && t.code == code }
  }

  datatype CommandError =
    | CommandInProgress | NotConfirmed | InvalidMode | InvalidHostname
    | RoomAlreadySaved | NoRoomSaved | StoredStateConflict
    | OperationFailed                                // a request failed, nothing to undo
    | TransactionFailed(cleanupFailures: nat)

  datatype Outcome = Ok | Err(error: CommandError) {
    function CleanupFailures(): nat {
      if Err? && error.TransactionFailed? then error.cleanupFailures else 0
    }
  }

  // ---------------------------------------------------------------- enrollment

  /** What the steps of an enrollment that may be undone meet, service.go:303-333. */
  datatype AttemptReplies = AttemptReplies(login: LoginReplies, up: UpReplies, codeSaved: Fate, metaSaved: Fate)

  /** What its compensation meets, service.go:433-450. */
  datatype UndoReplies = UndoReplies(
    deregister: DeregisterReplies, remove: RemoveReplies, clearMeta: Fate, clearCode: Fate)

  datatype EnrollReplies = EnrollReplies(
    metaRead: bool, codeRead: bool, obtained: bool, got: Enrollment, ensure: EnsureReplies,
    attempt: AttemptReplies, undo: UndoReplies)

  datatype Ended = Ended(local: Local, outcome: Outcome)

  function Told(s: Local, a: Asked): Local { s.(registry := a.registry, calls := s.calls + a.calls) }

  /** The state after the attempt, what it tried, and whether it succeeded. */
  datatype Attempted = Attempted(local: Local, loginTried: bool, codeTried: bool, metaTried: bool, ok: bool)

  /** service.go:303-313. */
  function AttemptRun(s: Local, p: ProfileId, got: Enrollment, q: AttemptReplies): Attempted {
    var a := LoginRun(s.registry, p, q.login);
    if a.ok then ConnectRun(Told(s, a), p, got, q) else Attempted(Told(s, a), true, false, false, false)
  }

  /** service.go:314-333: the code is written before the metadata. */
  function ConnectRun(s: Local, p: ProfileId, got: Enrollment, q: AttemptReplies): Attempted {
    var a := UpRun(s.registry, p, q.up);
    var t := Told(s, a);
    if !a.ok then Attempted(t, true, false, false, false) else
    var u := t.(code := if q.codeSaved.Applied() then Some(got.code) else t.code);
    if !q.codeSaved.Done? then Attempted(u, true, true, false, false) else
    var v := u.(meta := if q.metaSaved.Applied() then Some(RoomMetadata(got.roomId, got.managementURL, p)) else u.meta);
    Attempted(v, true, true, true, q.metaSaved.Done?)
  }

  // Nobody deregisters a device before an enrollment was tried.
  function DeregisterIf(tried: bool, r: Registry, p: ProfileId, q: DeregisterReplies): Asked {
    if tried then DeregisterRun(r, p, q) else Asked(r, 0, true)
  }

  /** compensate, service.go:426-451: every step is tried, whatever the others did, and the
      error says how many failed. */
  function UndoRun(t: Attempted, p: ProfileId, q: UndoReplies): Ended {
    var a := DeregisterIf(t.loginTried, t.local.registry, p, q.deregister);
    var b := RemoveRun(a.registry, p, q.remove);
    var failures := Bit(!a.ok) + Bit(!b.ok)
                    + Bit(t.metaTried && !q.clearMeta.Done?) + Bit(t.codeTried && !q.clearCode.Done?);
    Ended(Local(b.registry, if t.metaTried && q.clearMeta.Applied() then None else t.local.meta,
                if t.codeTried && q.clearCode.Applied() then None else t.local.code, t.local.calls + a.calls + b.calls),
          Err(TransactionFailed(failures)))
  }

  /** service.go:295-334: all of it, or undone. */
  function CommitRun(s: Local, p: ProfileId, got: Enrollment, aq: AttemptReplies, uq: UndoReplies): Ended {
    var a := AttemptRun(s, p, got, aq);
    if a.ok then Ended(a.local, Ok) else UndoRun(a, p, uq)
  }

  /** service.go:280-341, from the obtained key on. */
  function EnrollWithRun(s: Local, got: Enrollment, eq: EnsureReplies, aq: AttemptReplies, uq: UndoReplies): Ended {
    var e := EnsureRun(s.registry, eq);
    var t := s.(registry := e.registry, calls := s.calls + e.calls);
    if !e.result.Ensured? then Ended(t, Err(TransactionFailed(0))) else SavedRun(t, e.result.profile.id, got, aq, uq)
  }

  // A success asks for the daemon's status.
  function SavedRun(s: Local, p: ProfileId, got: Enrollment, aq: AttemptReplies, uq: UndoReplies): Ended {
    var c := CommitRun(s, p, got, aq, uq);
    if c.outcome.Ok? then Ended(c.local.(calls := c.local.calls + 1), Ok) else c
  }

  /** requireEmptyStorage, service.go:384-397. */
  function Obstacle(s: Local, metaRead: bool, codeRead: bool): Option<CommandError> {
    if metaRead && codeRead && s.Saved() then Some(RoomAlreadySaved)
    else if metaRead && codeRead && s.Empty() then None
    else Some(StoredStateConflict)
  }

  /** enrollUnlocked, service.go:270-342, given what everybody answers. */
  function EnrollRun(s: Local, q: EnrollReplies): Ended {
    var obstacle := Obstacle(s, q.metaRead, q.codeRead);
    if obstacle.Some? then Ended(s, Err(obstacle.value)) else
    var t := s.(calls := s.calls + 1);
    if q.obtained then EnrollWithRun(t, q.got, q.ensure, q.attempt, q.undo) else Ended(t, Err(OperationFailed))
  }

  ghost predicate EnrollEnds(s: Local, t: Local, o: Outcome, q: EnrollReplies) {
    q.ensure.newId >= s.registry.next && EnrollRun(s, q) == Ended(t, o)
  }

  // ---------------------------------------------------------------- enrollment in outline

  /** How far an enrollment gets: not to CreateProfile; to one that reports an error; or to a
      profile of its own. */
  datatype Stage = NotAsked | NotMade | Had(profile: ProfileId)

  function StageOf(s: Local, q: EnrollReplies): Stage {
    if Obstacle(s, q.metaRead, q.codeRead).Some? || !q.obtained then NotAsked else
    match EnsureRun(s.registry, q.ensure).result
    case Ensured(profile) => Had(profile.id)
    case _ => NotMade
  }

  /** An enrollment that ended before it had a profile. */
  ghost predicate NotEnrolled(s: Local, t: Local, o: Outcome, unreadable: bool) {
    && t.SameFiles(s) && t.registry == s.registry
    && o.Err?
    && match o.error
       case RoomAlreadySaved => s.Saved() && t.calls == s.calls
       case StoredStateConflict => (s.Split() || unreadable) && t.calls == s.calls
       case OperationFailed => s.Empty()
       case _ => false
  }

  /** CreateProfile said no. Its profile may be there all the same. */
  ghost predicate NotCreated(s: Local, t: Local, o: Outcome, q: EnsureReplies) {
    var e := EnsureRun(s.registry, q);
    && s.Empty() && t.Empty() && o == Err(TransactionFailed(0)) && !e.result.Ensured? && t.registry == e.registry
  }

  /** All of it: both files hold this enrollment and its profile is there. */
  ghost predicate Committed(s: Local, t: Local, p: ProfileId, got: Enrollment) {
    && t.registry.named == s.registry.named[p := MANAGED] && t.registry.next == p + 1
    && t.registry.enrolled == s.registry.enrolled + {p} && t.registry.up == Some(p)
    && t.registry.active in {s.registry.active, p}
    && t.meta == Some(RoomMetadata(got.roomId, got.managementURL, p)) && t.code == Some(got.code)
  }

  /** Compensated: what can be left is this enrollment's own, and nothing is if no step of
      the compensation failed. */
  ghost predicate Compensated(s: Local, t: Local, p: ProfileId, got: Enrollment, failures: nat) {
    && t.registry.named in {s.registry.named, s.registry.named[p := MANAGED]} && t.registry.next == p + 1
    && t.meta in {None, Some(RoomMetadata(got.roomId, got.managementURL, p))} && t.code in {None, Some(got.code)}
    && t.registry.enrolled in {s.registry.enrolled, s.registry.enrolled + {p}}
    && t.registry.active in {s.registry.active, p, DEFAULT}
    && (failures == 0 ==>
          && t.Empty() && t.registry.named == s.registry.named && t.registry.enrolled == s.registry.enrolled
          && t.registry.up != Some(p) && t.registry.active in {s.registry.active, DEFAULT})
  }

  /** What every enrollment keeps, whatever the answers. */
  ghost predicate Enrolls(s: Local, t: Local, o: Outcome, q: EnrollReplies) {
    match StageOf(s, q)
    case NotAsked => NotEnrolled(s, t, o, !q.metaRead || !q.codeRead)
    case NotMade => NotCreated(s, t, o, q.ensure)
    case Had(p) =>
      && s.Empty() && p == q.ensure.newId && !s.registry.HasManaged()
      && if o.Ok? then Committed(s, t, p, q.got)
         else o.error.TransactionFailed? && Compensated(s, t, p, q.got, o.CleanupFailures())
  }

  // The files and profiles an attempt can leave.
  ghost predicate AttemptKeeps(s: Local, a: Attempted, p: ProfileId, got: Enrollment) {
    var r, t := s.registry, a.local.registry;
    && a.loginTried && t.named == r.named && t.next == r.next
    && t.active in {r.active, p} && t.enrolled in {r.enrolled, r.enrolled + {p}}
    && (a.local.meta.None? || (a.metaTried && a.local.meta == Some(RoomMetadata(got.roomId, got.managementURL, p))))
    && (a.local.code.None? || (a.codeTried && a.local.code == Some(got.code)))
    && (a.ok ==> a.local.Saved() && p in t.enrolled && t.up == Some(p))
  }

  lemma AttemptRunKeeps(s: Local, p: ProfileId, got: Enrollment, q: AttemptReplies)
    requires s.Empty()
    ensures AttemptKeeps(s, AttemptRun(s, p, got, q), p, got)
  {
  }

  lemma UndoRunKeeps(s: Local, a: Attempted, p: ProfileId, got: Enrollment, q: UndoReplies)
    requires AttemptKeeps(s, a, p, got) && p !in s.registry.enrolled
    ensures var e := UndoRun(a, p, q); var r, t := s.registry, e.local.registry;
      && t.named in {r.named, r.named - {p}} && t.next == r.next && t.active in {r.active, p, DEFAULT}
      && t.enrolled in {r.enrolled, r.enrolled + {p}}
      && e.local.meta in {None, Some(RoomMetadata(got.roomId, got.managementURL, p))}
      && e.local.code in {None, Some(got.code)} && e.outcome.Err? && e.outcome.error.TransactionFailed?
      && (e.outcome.CleanupFailures() == 0 ==>
            && e.local.Empty() && t.named == r.named - {p} && t.enrolled == r.enrolled && t.up != Some(p)
            && t.active in {r.active, DEFAULT})
  {
    assert s.registry.enrolled - {p} == s.registry.enrolled && s.registry.enrolled + {p} - {p} == s.registry.enrolled;
    var d := DeregisterIf(a.loginTried, a.local.registry, p, q.deregister);
    Deregisters(a.local.registry, p, q.deregister);
    RemovesIt(d.registry, p, q.remove);
    hide DeregisterIf, RemoveRun;
  }

  lemma Deregisters(r: Registry, p: ProfileId, q: DeregisterReplies)
    ensures var d := DeregisterIf(true, r, p, q);
      && d.registry in {r, r.Deregistered(p)} && (d.ok ==> d.registry == r.Deregistered(p))
  {
  }

  lemma RemovesIt(r: Registry, p: ProfileId, q: RemoveReplies)
    ensures var d := RemoveRun(r, p, q); var other := if r.active == p then DEFAULT else r.active;
      && d.registry in {r, r.Selecting(other), r.Selecting(other).Without(p)}
      && (d.ok ==> d.registry == r.Selecting(other).Without(p))
  {
  }

  lemma EnrollRunEnrolls(s: Local, q: EnrollReplies)
    requires s.registry.Valid() && q.ensure.newId >= s.registry.next
    ensures var e := EnrollRun(s, q); Enrolls(s, e.local, e.outcome, q)
  {
    if StageOf(s, q).Had? {
      HadRun(s, q);
      var p, t := q.ensure.newId, Having(s, q);
      assert s.registry.named[p := MANAGED] - {p} == s.registry.named;
      AttemptRunKeeps(t, p, q.got, q.attempt);
      UndoRunKeeps(t, AttemptRun(t, p, q.got, q.attempt), p, q.got, q.undo);
      hide AttemptRun, UndoRun, AttemptKeeps, EnrollRun;
    }
  }

  // Where the attempt starts: the profile is made and nothing else is different.
  function Having(s: Local, q: EnrollReplies): Local {
    s.(registry := s.registry.Add(q.ensure.newId), calls := s.calls + 3)
  }

  /** Once it has a profile of its own, an enrollment commits or undoes what it attempted. */
  lemma HadRun(s: Local, q: EnrollReplies)
    requires StageOf(s, q).Had?
    ensures StageOf(s, q) == Had(q.ensure.newId) && s.Empty() && !s.registry.HasManaged()
    ensures var a := AttemptRun(Having(s, q), q.ensure.newId, q.got, q.attempt);
      EnrollRun(s, q) == if a.ok then Ended(a.local.(calls := a.local.calls + 1), Ok)
                         else UndoRun(a, q.ensure.newId, q.undo)
  {
    var t := s.(calls := s.calls + 1);
    assert t.(registry := EnsureRun(t.registry, q.ensure).registry, calls := t.calls + 2) == Having(s, q);
    assert EnrollRun(s, q) == EnrollWithRun(t, q.got, q.ensure, q.attempt, q.undo);
    hide AttemptRun, UndoRun;
  }

  // ---------------------------------------------------------------- the other commands

  /** Nothing happened at all. */
  ghost predicate NothingHappens(s: Local, t: Local, o: Outcome) { t == s && o.Err? && o.CleanupFailures() == 0 }

  /** What a Leave meets: the two files, the daemon twice, the two files again. */
  datatype LeaveReplies = LeaveReplies(
    metaRead: bool, codeRead: bool, deregister: DeregisterReplies, remove: RemoveReplies,
    clearMeta: Fate, clearCode: Fate)

  /** service.go:349-354, given what the daemon answers. */
  function GiveUpRun(r: Registry, p: ProfileId, dq: DeregisterReplies, rq: RemoveReplies): Asked {
    var a := DeregisterRun(r, p, dq);
    if !a.ok then a else
    var b := RemoveRun(a.registry, p, rq);
    Asked(b.registry, a.calls + b.calls, b.ok)
  }

  /** leaveUnlocked, service.go:344-366, given what everybody answers. */
  function LeaveRun(s: Local, q: LeaveReplies): Ended {
    if !q.metaRead || !q.codeRead then Ended(s, Err(StoredStateConflict))
    else if !s.Saved() then Ended(s, Err(if s.Empty() then NoRoomSaved else StoredStateConflict))
    else
      var a := GiveUpRun(s.registry, s.meta.value.profileId, q.deregister, q.remove);
      var t := s.(registry := a.registry, calls := s.calls + a.calls);
      if !a.ok then Ended(t, Err(OperationFailed)) else
      var failures := Bit(!q.clearMeta.Done?) + Bit(!q.clearCode.Done?);
      Ended(t.(meta := if q.clearMeta.Applied() then None else t.meta,
               code := if q.clearCode.Applied() then None else t.code),
            if failures > 0 then Err(TransactionFailed(failures)) else Ok)
  }

  /** The same in outline: what every Leave keeps, whatever the answers. */
  ghost predicate Leaves(s: Local, t: Local, o: Outcome) {
    if !s.Saved() then
      t == s && (o == Err(StoredStateConflict) || (o == Err(NoRoomSaved) && s.Empty()))
    else
      var p := s.meta.value.profileId;
      && t.registry.next == s.registry.next
      && t.registry.named in {s.registry.named, s.registry.named - {p}}
      && t.registry.active in {s.registry.active, if s.registry.active == p then DEFAULT else s.registry.active}
      && t.registry.enrolled in {s.registry.enrolled, s.registry.enrolled - {p}}
      && (t.registry.named != s.registry.named ==>
            t.registry.enrolled == s.registry.enrolled - {p} && t.registry.up != Some(p))
      && match o
         case Ok =>
           && p in s.registry.named && t.Empty()
           && t.registry.named == s.registry.named - {p}
           && t.registry.active == (if s.registry.active == p then DEFAULT else s.registry.active)
           && t.registry.enrolled == s.registry.enrolled - {p}
           && t.registry.up == if s.registry.up == Some(p) then None else s.registry.up
         case Err(StoredStateConflict) => t == s
         case Err(OperationFailed) => t.SameFiles(s)
         case Err(TransactionFailed(n)) =>
           && p in s.registry.named && t.registry.named == s.registry.named - {p} && 1 <= n <= 2
           && t.meta in {s.meta, None} && t.code in {s.code, None}
           && (n == 1 ==> t.meta.None? || t.code.None?)
         case _ => false
  }

  lemma LeaveRunLeaves(s: Local, q: LeaveReplies)
    ensures var e := LeaveRun(s, q); Leaves(s, e.local, e.outcome)
  {
    if s.Saved() { GivesUp(s.registry, s.meta.value.profileId, q.deregister, q.remove); }
    hide GiveUpRun;
  }

  lemma LeftState(s: Local, q: LeaveReplies)
    requires LeaveRun(s, q).outcome == Ok
    ensures var t := LeaveRun(s, q).local;
      s.CanLeave() && t.Empty() && t.registry.named == s.registry.named - {s.meta.value.profileId}
  {
    GivesUp(s.registry, s.meta.value.profileId, q.deregister, q.remove);
    hide GiveUpRun;
  }

  lemma GivesUp(r: Registry, p: ProfileId, dq: DeregisterReplies, rq: RemoveReplies)
    ensures var a := GiveUpRun(r, p, dq, rq); var other := if r.active == p then DEFAULT else r.active;
      && a.registry.next == r.next && a.registry.named in {r.named, r.named - {p}}
      && a.registry.active in {r.active, other}
      && a.registry.enrolled in {r.enrolled, r.enrolled - {p}}
      && (a.registry.named != r.named ==> a.registry.enrolled == r.enrolled - {p} && a.registry.up != Some(p))
      && (a.ok ==> p in r.named && a.registry == r.Deregistered(p).Without(p).Selecting(other))
  {
  }

  /** What a Switch did: nothing; it failed to leave the old room; or it left the old room,
      if there was one, and enrolled from `mid`, unless it could not draw its intent. */
  datatype SwitchTrail =
    | Declined
    | NotLeft(leave: LeaveReplies)
    | Moved(left: Option<LeaveReplies>, mid: Local, enroll: Option<EnrollReplies>)

  ghost predicate Switches(s: Local, t: Local, o: Outcome, st: SwitchTrail) {
    match st
    case Declined => NothingHappens(s, t, o)
    case NotLeft(q) => o.Err? && LeaveRun(s, q) == Ended(t, o)
    case Moved(left, mid, enroll) =>
      && (match left case None => s.Empty() && mid == s case Some(q) => LeaveRun(s, q) == Ended(mid, Ok))
      && match enroll
         case None => t == mid && o == Err(OperationFailed)
         case Some(q) => EnrollEnds(mid, t, o, q)
  }

  /** Connect and Disconnect: the selected profile may change, and only to ours; the
      connection comes up, or goes down, as asked. */
  ghost predicate KeepsRoom(s: Local, t: Local, o: Outcome, connect: bool) {
    if !s.Saved() then t == s && (o == Err(StoredStateConflict) || (o == Err(NoRoomSaved) && s.Empty()))
    else
      var p, up := s.meta.value.profileId, if connect then Some(s.meta.value.profileId) else None;
      && t.SameFiles(s) && o in {Ok, Err(StoredStateConflict), Err(OperationFailed)}
      && t.registry == s.registry.(active := t.registry.active, up := t.registry.up)
      && t.registry.active in {s.registry.active, p} && t.registry.up in {s.registry.up, up}
      && (o.Ok? ==> p in s.registry.named && t.registry.up == up)
  }
}
